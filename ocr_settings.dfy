/**
 * The settings of the three OCR engines (Qwen-VL, Nougat and the classic
 * engines), their defaults, and the range and membership constraints that
 * reject a settings object at construction.
 */
module OcrSettings {
  import opened Wrappers

  /** Settings of the Qwen-VL engine, served over HTTP. */
  datatype QwenVLSettings = QwenVLSettings(enabled: bool, modelName: string, apiBaseUrl: string,
                                           timeoutSeconds: int, maxRetries: int, retryDelay: real, temperature: real)

  const DefaultQwenVL: QwenVLSettings :=
    QwenVLSettings(true, "qwen/qwen2.5-vl-7b", "http://localhost:11434", 120, 3, 2.0, 0.1)

  /** The names of the fields outside their allowed range, in declaration order. */
  function QwenVLViolations(s: QwenVLSettings): (v: seq<string>)
    ensures "timeout_seconds" in v <==> !(10 <= s.timeoutSeconds <= 600)
    ensures "max_retries" in v <==> !(0 <= s.maxRetries <= 10)
    ensures "retry_delay" in v <==> !(0.1 <= s.retryDelay <= 30.0)
    ensures "temperature" in v <==> !(0.0 <= s.temperature <= 2.0)
    ensures forall f :: f in v ==> f in {"timeout_seconds", "max_retries", "retry_delay", "temperature"}
  {
    (if 10 <= s.timeoutSeconds <= 600 then [] else ["timeout_seconds"])
    + (if 0 <= s.maxRetries <= 10 then [] else ["max_retries"])
    + (if 0.1 <= s.retryDelay <= 30.0 then [] else ["retry_delay"])
    + (if 0.0 <= s.temperature <= 2.0 then [] else ["temperature"])
  }

  /**
   * `QwenVLSettings(...)`: the settings exactly as given when every field is
   * in range, otherwise the rejected fields.
   */
  function NewQwenVL(s: QwenVLSettings): (r: Result<QwenVLSettings, seq<string>>)
    ensures r.Ok? <==> && 10 <= s.timeoutSeconds <= 600 && 0 <= s.maxRetries <= 10
                       && 0.1 <= s.retryDelay <= 30.0 && 0.0 <= s.temperature <= 2.0
    ensures r.Ok? ==> r.value == s
    ensures r.Err? ==> r.error != [] && r.error == QwenVLViolations(s)
  {
    var v := QwenVLViolations(s);
    if v == [] then Ok(s) else Err(v)
  }

  /** Settings of the Nougat engine, run locally on a device. */
  datatype NougatSettings = NougatSettings(enabled: bool, modelName: string, device: string,
                                           batchSize: int, beamSize: int, dpi: int, timeoutSeconds: int)

  const DefaultNougat: NougatSettings := NougatSettings(true, "facebook/nougat-base", "auto", 1, 5, 300, 300)

  const NougatDevices: set<string> := {"auto", "cpu", "cuda", "mps"}

  function NougatViolations(s: NougatSettings): (v: seq<string>)
    ensures "device" in v <==> s.device !in NougatDevices
    ensures "batch_size" in v <==> !(1 <= s.batchSize <= 32)
    ensures "beam_size" in v <==> !(1 <= s.beamSize <= 10)
    ensures "dpi" in v <==> !(72 <= s.dpi <= 600)
    ensures forall f :: f in v ==> f in {"device", "batch_size", "beam_size", "dpi"}
  {
    (if s.device in NougatDevices then [] else ["device"])
    + (if 1 <= s.batchSize <= 32 then [] else ["batch_size"])
    + (if 1 <= s.beamSize <= 10 then [] else ["beam_size"])
    + (if 72 <= s.dpi <= 600 then [] else ["dpi"])
  }

  /** `NougatSettings(...)`: the settings as given when valid, otherwise the rejected fields. */
  function NewNougat(s: NougatSettings): (r: Result<NougatSettings, seq<string>>)
    ensures r.Ok? <==> && s.device in NougatDevices && 1 <= s.batchSize <= 32
                       && 1 <= s.beamSize <= 10 && 72 <= s.dpi <= 600
    ensures r.Ok? ==> r.value == s
    ensures r.Err? ==> r.error != [] && r.error == NougatViolations(s)
  {
    var v := NougatViolations(s);
    if v == [] then Ok(s) else Err(v)
  }

  /** Settings of the classic OCR engines. */
  datatype ClassicOcrSettings = ClassicOcrSettings(enabled: bool, preferredEngine: string,
                                                   tesseractLanguages: string, tesseractPsm: int)

  const DefaultClassicOcr: ClassicOcrSettings := ClassicOcrSettings(true, "unstructured", "fra+eng", 6)

  const ClassicEngines: set<string> := {"unstructured", "tesseract", "doctr", "pdfminer"}

  function ClassicOcrViolations(s: ClassicOcrSettings): (v: seq<string>)
    ensures "preferred_engine" in v <==> s.preferredEngine !in ClassicEngines
    ensures "tesseract_psm" in v <==> !(0 <= s.tesseractPsm <= 13)
    ensures forall f :: f in v ==> f in {"preferred_engine", "tesseract_psm"}
  {
    (if s.preferredEngine in ClassicEngines then [] else ["preferred_engine"])
    + (if 0 <= s.tesseractPsm <= 13 then [] else ["tesseract_psm"])
  }

  /** `ClassicOCRSettings(...)`: the settings as given when valid, otherwise the rejected fields. */
  function NewClassicOcr(s: ClassicOcrSettings): (r: Result<ClassicOcrSettings, seq<string>>)
    ensures r.Ok? <==> s.preferredEngine in ClassicEngines && 0 <= s.tesseractPsm <= 13
    ensures r.Ok? ==> r.value == s
    ensures r.Err? ==> r.error != [] && r.error == ClassicOcrViolations(s)
  {
    var v := ClassicOcrViolations(s);
    if v == [] then Ok(s) else Err(v)
  }

  /** The defaults of every engine are accepted, and every engine is enabled by default. */
  lemma DefaultsAccepted()
    ensures NewQwenVL(DefaultQwenVL) == Ok(DefaultQwenVL) && DefaultQwenVL.enabled
    ensures NewNougat(DefaultNougat) == Ok(DefaultNougat) && DefaultNougat.enabled
    ensures NewClassicOcr(DefaultClassicOcr) == Ok(DefaultClassicOcr) && DefaultClassicOcr.enabled
  {
  }

  /** Both ends of every Qwen-VL range are accepted, and the first value past either end is not. */
  lemma QwenVLBoundaries(s: QwenVLSettings)
    ensures NewQwenVL(s.(timeoutSeconds := 10, maxRetries := 0, retryDelay := 0.1, temperature := 0.0)).Ok?
    ensures NewQwenVL(s.(timeoutSeconds := 600, maxRetries := 10, retryDelay := 30.0, temperature := 2.0)).Ok?
    ensures NewQwenVL(s.(timeoutSeconds := 9)).Err? && NewQwenVL(s.(timeoutSeconds := 601)).Err?
    ensures NewQwenVL(s.(maxRetries := -1)).Err? && NewQwenVL(s.(maxRetries := 11)).Err?
  {
  }
}
