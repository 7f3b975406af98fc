/**
 * The producer options shared by `produce` and the perf tool: how the batch
 * size and compression options are parsed and how they are assembled into
 * the settings a producer is built with.
 */
module CmdCommons {
  import opened Wrappers
  import opened Text

  type i32 = x: int | -0x8000_0000 <= x < 0x8000_0000
  type u32 = x: int | 0 <= x < 0x1_0000_0000
  type u64 = x: int | 0 <= x < 0x1_0000_0000_0000_0000

  datatype Compression = Lz4 | Zlib | Zstd | Snappy

  datatype ProducerOpts = ProducerOpts(
    topic: string,
    name: Option<string>,
    batchSize: i32,
    compression: Option<string>,
    batchingMaxPublishLatencyMs: u64)

  /** What `producer_builder` configures: the topic, the optional name and the producer options. */
  datatype ProducerSettings = ProducerSettings(
    topic: string,
    name: Option<string>,
    batchSize: Option<u32>,
    compression: Option<Compression>,
    accessMode: Option<nat>)

  /** `parse_batch_size`: a non-positive size means no batching. */
  function ParseBatchSize(batchSize: i32): (r: Option<u32>)
    ensures r.None? <==> batchSize <= 0
    ensures r.Some? ==> r.value == batchSize
  {
    if batchSize <= 0 then None else Some(batchSize)
  }

  /** The name under which each compression is accepted. */
  function CompressionName(c: Compression): string {
    match c
    case Lz4 => "lz4"
    case Zlib => "zlib"
    case Zstd => "zstd"
    case Snappy => "snappy"
  }

  /** `parse_compression`: no option means no compression; a name is matched after lower-casing. */
  function ParseCompression(compression: Option<string>): (r: Result<Option<Compression>, string>)
    ensures compression.None? ==> r == Ok(None)
    ensures compression.Some? && r.Err? ==> r.error == "illegal compression [" + compression.value + "]"
    ensures compression.Some? && r.Ok? ==> r.value.Some?
  {
    match compression
    case None => Ok(None)
    case Some(s) =>
      var l := ToLower(s);
      if l == "lz4" then Ok(Some(Lz4))
      else if l == "zlib" then Ok(Some(Zlib))
      else if l == "zstd" then Ok(Some(Zstd))
      else if l == "snappy" then Ok(Some(Snappy))
      else Err("illegal compression [" + s + "]")
  }

  /** A compression name is accepted in any ASCII case, and nothing else is accepted. */
  lemma ParseCompressionIff(s: string, c: Compression)
    ensures ParseCompression(Some(s)) == Ok(Some(c)) <==> EqualIgnoringCase(s, CompressionName(c))
  {
    EqualIgnoringCaseIff(s, CompressionName(c));
    assert ToLower(CompressionName(c)) == CompressionName(c);
  }

  /** Round trip: each compression's name parses back to it. */
  lemma CompressionRoundTrip(c: Compression)
    ensures ParseCompression(Some(CompressionName(c))) == Ok(Some(c))
  {
    ParseCompressionIff(CompressionName(c), c);
  }

  lemma ParseCompressionExamples()
    ensures ParseCompression(Some("LZ4")) == Ok(Some(Lz4))
    ensures ParseCompression(Some("Snappy")) == Ok(Some(Snappy))
    ensures ParseCompression(Some("gzip")).Err?
  {
    assert ToLower("gzip")[0] == 'g';
  }

  /**
   * `producer_builder`: fails exactly when the compression option is illegal;
   * otherwise the settings carry the topic, the name only when one is given,
   * the parsed batch size and compression, and access mode 0.
   */
  function ProducerBuilder(opts: ProducerOpts): (r: Result<ProducerSettings, string>)
    ensures r.Ok? <==> ParseCompression(opts.compression).Ok?
    ensures r.Err? ==> r.error == ParseCompression(opts.compression).error
    ensures r.Ok? ==> r.value.topic == opts.topic && r.value.name == opts.name
    ensures r.Ok? ==> r.value.batchSize == ParseBatchSize(opts.batchSize)
    ensures r.Ok? ==> r.value.compression == ParseCompression(opts.compression).value
    ensures r.Ok? ==> r.value.accessMode == Some(0)
  {
    match ParseCompression(opts.compression)
    case Err(e) => Err(e)
    case Ok(c) =>
      var settings := ProducerSettings(opts.topic, None, ParseBatchSize(opts.batchSize), c, Some(0));
      Ok(if opts.name.Some? then WithName(settings, opts.name.value) else settings)
  }

  /** `ProducerBuilder::with_name`: the name is set, whatever it was before. */
  function WithName(settings: ProducerSettings, name: string): (r: ProducerSettings)
    ensures r.name == Some(name)
    ensures r.(name := settings.name) == settings
  {
    settings.(name := Some(name))
  }
}
