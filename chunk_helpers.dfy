/**
 * The processing summary written after chunking one document: metadata,
 * the document's name and format, the configuration used, the processing
 * stages that actually ran, and statistics over the chunk sizes.
 */
module ChunkHelpers {
  import opened Wrappers
  import opened JsonValues
  import opened Paths

  /** The version string the summary's metadata carries. */
  const SummaryVersion: string := "1.0.0"

  datatype LlmConfig = LlmConfig(useLlm: bool, provider: string, model: string, isLocal: bool)
  datatype OcrConfig = OcrConfig(useAdvancedOcr: bool, dictionaryThreshold: real, dynamicThreshold: bool, enableFallback: bool)
  datatype ChunkingConfig = ChunkingConfig(strategy: string, maxTokens: int, overlap: int)
  datatype Config = Config(llm: LlmConfig, ocr: OcrConfig, chunking: ChunkingConfig)

  /** What the OCR step reported: its engine, whether it succeeded, and its extra data. */
  datatype OcrResult = OcrResult(engine: string, success: bool, qualityMetrics: map<string, Json>, routingDecisions: seq<Json>)

  /** The optional entries of the processing data: each one is present only when its stage ran. */
  datatype ProcessingData = ProcessingData(ocrResult: Option<OcrResult>, ocrTime: Option<real>,
                                           chunkingTime: Option<real>, strategySelection: Option<map<string, Json>>)

  /** Sizes, in characters, of the chunks. */
  function Lengths(chunks: seq<string>): (r: seq<nat>)
    ensures |r| == |chunks| && forall i :: 0 <= i < |chunks| ==> r[i] == |chunks[i]|
  {
    seq(|chunks|, i requires 0 <= i < |chunks| => |chunks[i]|)
  }

  function Total(xs: seq<nat>): nat
  {
    if xs == [] then 0 else xs[0] + Total(xs[1..])
  }

  /** The smallest size. */
  function Smallest(xs: seq<nat>): (m: nat)
    requires xs != []
    ensures m in xs && forall i :: 0 <= i < |xs| ==> m <= xs[i]
  {
    if |xs| == 1 then xs[0]
    else
      var rest := Smallest(xs[1..]);
      assert forall i :: 1 <= i < |xs| ==> xs[i] == xs[1..][i - 1];
      if xs[0] <= rest then xs[0] else rest
  }

  /** The largest size. */
  function Largest(xs: seq<nat>): (m: nat)
    requires xs != []
    ensures m in xs && forall i :: 0 <= i < |xs| ==> xs[i] <= m
  {
    if |xs| == 1 then xs[0]
    else
      var rest := Largest(xs[1..]);
      assert forall i :: 1 <= i < |xs| ==> xs[i] == xs[1..][i - 1];
      if rest <= xs[0] then xs[0] else rest
  }

  /** The `results.chunks` statistics. */
  datatype ChunkStats = ChunkStats(totalCount: nat, minSize: nat, maxSize: nat, totalLength: nat, averageSize: nat)

  /**
   * Statistics over chunk sizes: count, smallest, largest, total and the
   * floor of the mean; every size statistic is 0 when there are no chunks.
   */
  function SizeStatistics(xs: seq<nat>): (s: ChunkStats)
    ensures s.totalCount == |xs| && s.totalLength == Total(xs)
    ensures xs == [] ==> s == ChunkStats(0, 0, 0, 0, 0)
    ensures xs != [] ==> s.minSize in xs && forall i :: 0 <= i < |xs| ==> s.minSize <= xs[i]
    ensures xs != [] ==> s.maxSize in xs && forall i :: 0 <= i < |xs| ==> xs[i] <= s.maxSize
    ensures xs != [] ==> s.averageSize * |xs| <= s.totalLength < s.averageSize * |xs| + |xs|
  {
    if xs == [] then ChunkStats(0, 0, 0, 0, 0)
    else ChunkStats(|xs|, Smallest(xs), Largest(xs), Total(xs), FloorMean(Total(xs), |xs|))
  }

  /**
   * The statistics over the text lengths of `chunks`: their number, the
   * length of a shortest and of a longest chunk, the sum of the lengths and
   * the floor of their mean; all zeros when there are no chunks.
   */
  function ChunkStatistics(chunks: seq<string>): (s: ChunkStats)
    ensures s.totalCount == |chunks| && s.totalLength == Total(Lengths(chunks))
    ensures chunks == [] ==> s == ChunkStats(0, 0, 0, 0, 0)
    ensures chunks != [] ==>
      && (exists i :: 0 <= i < |chunks| && s.minSize == |chunks[i]|)
      && forall j :: 0 <= j < |chunks| ==> s.minSize <= |chunks[j]|
    ensures chunks != [] ==>
      && (exists i :: 0 <= i < |chunks| && s.maxSize == |chunks[i]|)
      && forall j :: 0 <= j < |chunks| ==> |chunks[j]| <= s.maxSize
    ensures chunks != [] ==> s.averageSize * |chunks| <= s.totalLength < s.averageSize * |chunks| + |chunks|
  {
    var xs := Lengths(chunks);
    var st := SizeStatistics(xs);
    if chunks == [] then st
    else
      var lo :| 0 <= lo < |xs| && xs[lo] == st.minSize;
      var hi :| 0 <= hi < |xs| && xs[hi] == st.maxSize;
      assert st.minSize == |chunks[lo]| && st.maxSize == |chunks[hi]|;
      st
  }

  /** Floor division brackets its dividend. */
  lemma {:induction false} FloorDivBounds(t: nat, n: nat)
    requires n > 0
    ensures (t / n) * n <= t < (t / n) * n + n
  {
    assert t == (t / n) * n + t % n;
  }

  /** The mean of `n` values adding up to `t`, rounded down. */
  function FloorMean(t: nat, n: nat): (m: nat)
    requires n > 0
    ensures m * n <= t < m * n + n
  {
    var q := t / n;
    FloorDivBounds(t, n);
    q
  }

  lemma {:induction false} MulMonotonic(a: nat, b: nat, n: nat)
    requires a <= b
    ensures a * n <= b * n
  {
    if n > 0 {
      MulMonotonic(a, b, n - 1);
      assert a * n == a * (n - 1) + a;
      assert b * n == b * (n - 1) + b;
    }
  }

  /** Sizes bounded by `lo` and `hi` add up to between `n * lo` and `n * hi`. */
  lemma {:induction false} TotalBounds(xs: seq<nat>, lo: nat, hi: nat)
    requires forall i :: 0 <= i < |xs| ==> lo <= xs[i] <= hi
    ensures |xs| * lo <= Total(xs) <= |xs| * hi
  {
    if xs != [] {
      assert forall i :: 0 <= i < |xs[1..]| ==> xs[1..][i] == xs[i + 1];
      TotalBounds(xs[1..], lo, hi);
      assert |xs| * lo == lo + (|xs| - 1) * lo;
      assert |xs| * hi == hi + (|xs| - 1) * hi;
    }
  }

  /** A floor mean of values between `lo` and `hi` is itself between them. */
  lemma {:induction false} FloorMeanBetween(t: nat, n: nat, lo: nat, hi: nat)
    requires n > 0 && n * lo <= t <= n * hi
    ensures lo <= FloorMean(t, n) <= hi
  {
    var m := FloorMean(t, n);
    assert n * lo == lo * n && n * hi == hi * n;
    assert (m + 1) * n == m * n + n;
    if m < lo {
      MulMonotonic(m + 1, lo, n);
    }
    if hi < m {
      MulMonotonic(hi + 1, m, n);
    }
  }

  /** The average lies between the smallest and the largest chunk size. */
  lemma {:induction false} AverageBetweenExtremes(xs: seq<nat>)
    ensures SizeStatistics(xs).minSize <= SizeStatistics(xs).averageSize <= SizeStatistics(xs).maxSize
  {
    if xs != [] {
      var s := SizeStatistics(xs);
      TotalBounds(xs, s.minSize, s.maxSize);
      FloorMeanBetween(Total(xs), |xs|, s.minSize, s.maxSize);
    }
  }

  /** Sizes 50, 100 and 200 give count 3, extremes 50 and 200, total 350 and floor mean 116. */
  lemma StatisticsExample()
    ensures SizeStatistics([50, 100, 200]) == ChunkStats(3, 50, 200, 350, 116)
  {
    var xs: seq<nat> := [50, 100, 200];
    assert xs[1..] == [100, 200] && xs[1..][1..] == [200];
    assert Total(xs) == 350;
    assert Smallest(xs) == 50;
    assert Largest(xs) == 200;
  }

  /** `j[key]` on an object, when `j` is one and has that key. */
  function Field(j: Option<Json>, key: string): Option<Json>
  {
    if j.Some? && j.value.JObj? && key in j.value.fields then Some(j.value.fields[key]) else None
  }

  function Strings(xs: seq<string>): (j: Json)
    ensures j.JArr? && |j.items| == |xs| && forall i :: 0 <= i < |xs| ==> j.items[i] == JStr(xs[i])
  {
    JArr(seq(|xs|, i requires 0 <= i < |xs| => JStr(xs[i])))
  }

  function StatsJson(s: ChunkStats): Json
  {
    JObj(map["total_count" := JInt(s.totalCount), "min_size_chars" := JInt(s.minSize),
             "max_size_chars" := JInt(s.maxSize), "total_text_length" := JInt(s.totalLength),
             "average_size_chars" := JInt(s.averageSize)])
  }

  /** The `configuration.llm` section: provider and model are reported only when the LLM is in use. */
  function LlmSection(c: LlmConfig): (j: Json)
    ensures j.JObj? && "enabled" in j.fields && j.fields["enabled"] == JBool(c.useLlm)
    ensures c.useLlm ==> ("provider" in j.fields && j.fields["provider"] == JStr(c.provider)
                          && "model" in j.fields && j.fields["model"] == JStr(c.model))
    ensures !c.useLlm ==> j.fields.Keys == {"enabled"}
  {
    if c.useLlm then
      JObj(map["enabled" := JBool(true), "provider" := JStr(c.provider), "model" := JStr(c.model),
               "is_local" := JBool(c.isLocal)])
    else JObj(map["enabled" := JBool(false)])
  }

  function ConfigurationSection(c: Config): Json
  {
    JObj(map[
      "llm" := LlmSection(c.llm),
      "ocr" := JObj(map["use_advanced_ocr" := JBool(c.ocr.useAdvancedOcr),
                        "dictionary_threshold" := JReal(c.ocr.dictionaryThreshold),
                        "dynamic_threshold" := JBool(c.ocr.dynamicThreshold),
                        "enable_fallback" := JBool(c.ocr.enableFallback)]),
      "chunking" := JObj(map["strategy" := JStr(c.chunking.strategy),
                             "max_tokens" := JInt(c.chunking.maxTokens),
                             "overlap" := JInt(c.chunking.overlap)])])
  }

  function OcrStage(r: OcrResult, time: Option<real>): Json
  {
    JObj(map["engine" := JStr(r.engine), "success" := JBool(r.success),
             "time_seconds" := JReal(if time.Some? then time.value else 0.0), "quality_metrics" := JObj(r.qualityMetrics)])
  }

  /** The `processing.stages` object: one entry per stage whose data was supplied, carrying that data. */
  function Stages(data: ProcessingData): (stages: map<string, Json>)
    ensures "ocr" in stages <==> data.ocrResult.Some?
    ensures "chunking" in stages <==> data.chunkingTime.Some?
    ensures "strategy_selection" in stages <==> data.strategySelection.Some?
    ensures stages.Keys <= {"ocr", "chunking", "strategy_selection"}
    ensures data.ocrResult.Some? ==>
      Field(Some(stages["ocr"]), "engine") == Some(JStr(data.ocrResult.value.engine))
      && Field(Some(stages["ocr"]), "success") == Some(JBool(data.ocrResult.value.success))
    ensures data.ocrResult.Some? && data.ocrTime.Some? ==> Field(Some(stages["ocr"]), "time_seconds") == Some(JReal(data.ocrTime.value))
    ensures data.chunkingTime.Some? ==> Field(Some(stages["chunking"]), "time_seconds") == Some(JReal(data.chunkingTime.value))
    ensures data.strategySelection.Some? ==> stages["strategy_selection"] == JObj(data.strategySelection.value)
  {
    var withOcr := if data.ocrResult.Some? then map["ocr" := OcrStage(data.ocrResult.value, data.ocrTime)] else map[];
    var withChunking := if data.chunkingTime.Some? then withOcr["chunking" := JObj(map["time_seconds" := JReal(data.chunkingTime.value)])] else withOcr;
    if data.strategySelection.Some? then withChunking["strategy_selection" := JObj(data.strategySelection.value)] else withChunking
  }

  function MetadataSection(success: bool, errors: seq<string>): Json
  {
    JObj(map["success" := JBool(success), "errors" := Strings(errors), "atlas_rag_version" := JStr(SummaryVersion)])
  }

  function DocumentSection(path: string): Json
  {
    JObj(map["filename" := JStr(Name(path)), "format" := JStr(Suffix(Name(path))), "path" := JStr(path)])
  }

  /**
   * `generate_processing_summary` for the document at `path`: `success`
   * and `errors` are the outcome the caller reports. The five sections are
   * always present, whatever processing data is supplied.
   */
  function GenerateProcessingSummary(path: string, config: Config, data: ProcessingData, chunks: seq<string>,
                                     success: bool, errors: seq<string>): (s: Json)
    ensures s.JObj? && s.fields.Keys == {"metadata", "document", "configuration", "processing", "results"}
  {
    JObj(map[
      "metadata" := MetadataSection(success, errors),
      "document" := DocumentSection(path),
      "configuration" := ConfigurationSection(config),
      "processing" := JObj(map["stages" := JObj(Stages(data))]),
      "results" := JObj(map["chunks" := StatsJson(ChunkStatistics(chunks))])])
  }

  /** The fields of the metadata section. */
  lemma MetadataFields(success: bool, errors: seq<string>)
    ensures var m := Some(MetadataSection(success, errors));
      && Field(m, "success") == Some(JBool(success)) && Field(m, "errors") == Some(Strings(errors))
      && Field(m, "atlas_rag_version") == Some(JStr(SummaryVersion))
  {
  }

  /** Looking up the name and format in a document object. */
  lemma DocumentLookup(name: string, format: string, path: string)
    ensures var d := Some(JObj(map["filename" := JStr(name), "format" := JStr(format), "path" := JStr(path)]));
      Field(d, "filename") == Some(JStr(name)) && Field(d, "format") == Some(JStr(format))
  {
  }

  /** The fields of the document section. */
  lemma DocumentFields(path: string)
    ensures var d := Some(DocumentSection(path));
      Field(d, "filename") == Some(JStr(Name(path))) && Field(d, "format") == Some(JStr(Suffix(Name(path))))
  {
    DocumentLookup(Name(path), Suffix(Name(path)), path);
  }

  /** The LLM entry of the configuration section. */
  lemma ConfigurationFields(config: Config)
    ensures Field(Some(ConfigurationSection(config)), "llm") == Some(LlmSection(config.llm))
  {
  }

  /** The chunk statistics entry of the results section. */
  lemma ResultsFields(chunks: seq<string>)
    ensures var c := Field(Some(JObj(map["chunks" := StatsJson(ChunkStatistics(chunks))])), "chunks");
      && Field(c, "total_count") == Some(JInt(|chunks|))
      && (chunks == [] ==>
            && Field(c, "min_size_chars") == Some(JInt(0)) && Field(c, "max_size_chars") == Some(JInt(0))
            && Field(c, "average_size_chars") == Some(JInt(0)))
  {
  }

  /** Looking up each statistic in a results section. */
  lemma StatsFields(st: ChunkStats)
    ensures var c := Field(Some(JObj(map["chunks" := StatsJson(st)])), "chunks");
      && Field(c, "total_count") == Some(JInt(st.totalCount))
      && Field(c, "min_size_chars") == Some(JInt(st.minSize))
      && Field(c, "max_size_chars") == Some(JInt(st.maxSize))
      && Field(c, "total_text_length") == Some(JInt(st.totalLength))
      && Field(c, "average_size_chars") == Some(JInt(st.averageSize))
  {
  }

  /** Looking up each section in an object shaped like a summary. */
  lemma SectionLookup(metadata: Json, document: Json, configuration: Json, processing: Json, results: Json)
    ensures var s := Some(JObj(map["metadata" := metadata, "document" := document, "configuration" := configuration,
                                   "processing" := processing, "results" := results]));
      && Field(s, "metadata") == Some(metadata) && Field(s, "document") == Some(document)
      && Field(s, "configuration") == Some(configuration) && Field(s, "processing") == Some(processing)
      && Field(s, "results") == Some(results)
  {
  }

  /** Looking up the metadata section in the summary. */
  lemma MetadataPart(path: string, config: Config, data: ProcessingData, chunks: seq<string>,
                      success: bool, errors: seq<string>)
    ensures var s := Some(GenerateProcessingSummary(path, config, data, chunks, success, errors));
      Field(s, "metadata") == Some(MetadataSection(success, errors))
  {
    SectionLookup(MetadataSection(success, errors), DocumentSection(path), ConfigurationSection(config),
                  JObj(map["stages" := JObj(Stages(data))]), JObj(map["chunks" := StatsJson(ChunkStatistics(chunks))]));
  }

  /** Looking up the document section in the summary. */
  lemma DocumentPart(path: string, config: Config, data: ProcessingData, chunks: seq<string>,
                      success: bool, errors: seq<string>)
    ensures var s := Some(GenerateProcessingSummary(path, config, data, chunks, success, errors));
      Field(s, "document") == Some(DocumentSection(path))
  {
    SectionLookup(MetadataSection(success, errors), DocumentSection(path), ConfigurationSection(config),
                  JObj(map["stages" := JObj(Stages(data))]), JObj(map["chunks" := StatsJson(ChunkStatistics(chunks))]));
  }

  /** Looking up the configuration section in the summary. */
  lemma ConfigurationPart(path: string, config: Config, data: ProcessingData, chunks: seq<string>,
                      success: bool, errors: seq<string>)
    ensures var s := Some(GenerateProcessingSummary(path, config, data, chunks, success, errors));
      Field(s, "configuration") == Some(ConfigurationSection(config))
  {
    SectionLookup(MetadataSection(success, errors), DocumentSection(path), ConfigurationSection(config),
                  JObj(map["stages" := JObj(Stages(data))]), JObj(map["chunks" := StatsJson(ChunkStatistics(chunks))]));
  }

  /** Looking up the processing section in the summary. */
  lemma ProcessingPart(path: string, config: Config, data: ProcessingData, chunks: seq<string>,
                      success: bool, errors: seq<string>)
    ensures var s := Some(GenerateProcessingSummary(path, config, data, chunks, success, errors));
      Field(s, "processing") == Some(JObj(map["stages" := JObj(Stages(data))]))
  {
    SectionLookup(MetadataSection(success, errors), DocumentSection(path), ConfigurationSection(config),
                  JObj(map["stages" := JObj(Stages(data))]), JObj(map["chunks" := StatsJson(ChunkStatistics(chunks))]));
  }

  /** Looking up the results section in the summary. */
  lemma ResultsPart(path: string, config: Config, data: ProcessingData, chunks: seq<string>,
                      success: bool, errors: seq<string>)
    ensures var s := Some(GenerateProcessingSummary(path, config, data, chunks, success, errors));
      Field(s, "results") == Some(JObj(map["chunks" := StatsJson(ChunkStatistics(chunks))]))
  {
    SectionLookup(MetadataSection(success, errors), DocumentSection(path), ConfigurationSection(config),
                  JObj(map["stages" := JObj(Stages(data))]), JObj(map["chunks" := StatsJson(ChunkStatistics(chunks))]));
  }

  /** The metadata reports the outcome as given, and the version. */
  lemma SummaryMetadata(path: string, config: Config, data: ProcessingData, chunks: seq<string>,
                        success: bool, errors: seq<string>)
    ensures var s := Some(GenerateProcessingSummary(path, config, data, chunks, success, errors));
      && Field(Field(s, "metadata"), "success") == Some(JBool(success))
      && Field(Field(s, "metadata"), "errors") == Some(Strings(errors))
      && Field(Field(s, "metadata"), "atlas_rag_version") == Some(JStr(SummaryVersion))
  {
    MetadataPart(path, config, data, chunks, success, errors);
    MetadataFields(success, errors);
  }

  /** The defaults are a successful run with no errors. */
  lemma SummaryDefaults(path: string, config: Config, data: ProcessingData, chunks: seq<string>)
    ensures var s := Some(GenerateProcessingSummary(path, config, data, chunks, true, []));
      && Field(Field(s, "metadata"), "success") == Some(JBool(true))
      && Field(Field(s, "metadata"), "errors") == Some(JArr([]))
  {
    SummaryMetadata(path, config, data, chunks, true, []);
  }

  /** The document is described by its file name and that name's suffix. */
  lemma SummaryDocument(path: string, config: Config, data: ProcessingData, chunks: seq<string>,
                        success: bool, errors: seq<string>)
    ensures var s := Some(GenerateProcessingSummary(path, config, data, chunks, success, errors));
      && Field(Field(s, "document"), "filename") == Some(JStr(Name(path)))
      && Field(Field(s, "document"), "format") == Some(JStr(Suffix(Name(path))))
  {
    DocumentPart(path, config, data, chunks, success, errors);
    DocumentFields(path);
  }

  /** The configuration section carries the LLM settings, and the processing section the stages that ran. */
  lemma SummarySections(path: string, config: Config, data: ProcessingData, chunks: seq<string>,
                        success: bool, errors: seq<string>)
    ensures var s := Some(GenerateProcessingSummary(path, config, data, chunks, success, errors));
      && Field(Field(s, "configuration"), "llm") == Some(LlmSection(config.llm))
      && Field(Field(s, "processing"), "stages") == Some(JObj(Stages(data)))
  {
    ConfigurationPart(path, config, data, chunks, success, errors);
    ConfigurationFields(config);
    ProcessingPart(path, config, data, chunks, success, errors);
  }

  /** The reported chunk count is the number of chunks, and with no chunks every size statistic is 0. */
  lemma {:induction false} SummaryChunkCounts(path: string, config: Config, data: ProcessingData, chunks: seq<string>,
                                              success: bool, errors: seq<string>)
    ensures var s := Some(GenerateProcessingSummary(path, config, data, chunks, success, errors));
      && Field(Field(Field(s, "results"), "chunks"), "total_count") == Some(JInt(|chunks|))
      && (chunks == [] ==>
            && Field(Field(Field(s, "results"), "chunks"), "min_size_chars") == Some(JInt(0))
            && Field(Field(Field(s, "results"), "chunks"), "max_size_chars") == Some(JInt(0))
            && Field(Field(Field(s, "results"), "chunks"), "average_size_chars") == Some(JInt(0)))
  {
    ResultsPart(path, config, data, chunks, success, errors);
    ResultsFields(chunks);
  }

  /**
   * The summary's chunk statistics are those of the chunks: the total is
   * their summed length, and minimum, maximum and average are the ones
   * `ChunkStatistics` establishes (sizes of actual chunks bounding every
   * size, and the floor of the mean).
   */
  lemma SummaryChunkStatistics(path: string, config: Config, data: ProcessingData, chunks: seq<string>,
                               success: bool, errors: seq<string>)
    ensures var c := Field(Field(Some(GenerateProcessingSummary(path, config, data, chunks, success, errors)), "results"), "chunks");
      && Field(c, "min_size_chars") == Some(JInt(ChunkStatistics(chunks).minSize))
      && Field(c, "max_size_chars") == Some(JInt(ChunkStatistics(chunks).maxSize))
      && Field(c, "total_text_length") == Some(JInt(Total(Lengths(chunks))))
      && Field(c, "average_size_chars") == Some(JInt(ChunkStatistics(chunks).averageSize))
  {
    ResultsPart(path, config, data, chunks, success, errors);
    StatsFields(ChunkStatistics(chunks));
  }
}
