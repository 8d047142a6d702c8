/**
 * The class form of the strategy pattern in `08_strategy/solution2.js`: the
 * base `compressionStrategy` throws from `compress`, the ZIP and GZIP
 * subclasses return a message naming the data, and `CompressionContext`
 * holds the current strategy object and delegates to it. The strategy
 * objects have no fields, so they are values.
 */
module CompressionClasses {
  import opened Wrappers
  import Strings

  /** The three strategy classes. */
  datatype Strategy = Base | Zip | Gzip

  /** What a strategy logs and what it returns. */
  datatype Compressed = Compressed(log: string, result: string)

  /** The name a subclass puts in its messages. */
  function Name(s: Strategy): string
    requires s != Base
  {
    if s == Zip then "ZIP" else "GZIP"
  }

  /** `strategy.compress(data)`: the base class throws, the others log and return their message. */
  function CompressWith(s: Strategy, data: string): (r: Result<Compressed>)
    ensures r.Err? <==> s == Base
    ensures r.Err? ==> r.message == "compression method for " + data + " should be implemented."
    ensures r.Ok? ==> |r.value.result| > 11 + |data| && r.value.result[11..11 + |data|] == data
    ensures r.Ok? ==> Strings.StartsWith(r.value.result, "Compressed ")
  {
    if s == Base then Err("compression method for " + data + " should be implemented.")
    else
      var tail := " using " + Name(s) + " strategy";
      var result := "Compressed " + data + tail;
      assert result[11..11 + |data|] == data;
      assert result[..11] == "Compressed ";
      Ok(Compressed("Compressing " + data + tail, result))
  }

  /** The data can be read back from a result, so different data give different results. */
  lemma CompressInjective(s: Strategy, a: string, b: string)
    requires s != Base && a != b
    ensures CompressWith(s, a).value.result != CompressWith(s, b).value.result
  {
    var ra, rb := CompressWith(s, a).value.result, CompressWith(s, b).value.result;
    if |a| == |b| {
      assert ra[11..11 + |a|] != rb[11..11 + |b|];
    } else {
      assert |ra| == 11 + |a| + |" using " + Name(s) + " strategy"|;
    }
  }

  /** `CompressionContext`. */
  class CompressionContext {
    var strategy: Strategy

    /** `new CompressionContext(strategy)`. */
    constructor(strategy: Strategy)
      ensures this.strategy == strategy
    {
      this.strategy := strategy;
    }

    /** `setStrategy(newStrategy)`. */
    method SetStrategy(newStrategy: Strategy)
      modifies this
      ensures strategy == newStrategy
    {
      strategy := newStrategy;
    }

    /** `compress(data)`: whatever the current strategy does, throwing included. */
    method Compress(data: string) returns (r: Result<Compressed>)
      ensures r == CompressWith(strategy, data)
    {
      r := CompressWith(strategy, data);
    }
  }

  /** The example: ZIP, then GZIP after `setStrategy`, both succeed and name the data. */
  method ExampleUsage() returns (first: Result<Compressed>, second: Result<Compressed>)
    ensures first == CompressWith(Zip, " my data") && first.Ok?
    ensures second == CompressWith(Gzip, " my data") && second.Ok?
  {
    var context := new CompressionContext(Zip);
    first := context.Compress(" my data");
    context.SetStrategy(Gzip);
    second := context.Compress(" my data");
  }
}
