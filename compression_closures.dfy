/**
 * The closure form of the strategy pattern in `08_strategy/solution.js`:
 * a strategy is a function from data to its console line and result, and
 * `compressionContext(strategy)` returns `setStrategy` and `compress`
 * closures over one captured, reassignable `strategy` variable. That
 * variable is the field of a `Context` object.
 */
module CompressionClosures {
  import Strings

  /** What a strategy logs and what it returns. */
  datatype Compressed = Compressed(log: string, result: string)

  /** A compression strategy. */
  type Strategy = string -> Compressed

  /** `zipCompressionStrategy(data)`. */
  function ZipCompressionStrategy(data: string): (c: Compressed)
    ensures Strings.StartsWith(c.result, "Compressed using ")
  {
    var c := Compressed("Compressing using ZIP algorithm", "Compressed using ZIP");
    assert c.result[..|"Compressed using "|] == "Compressed using ";
    c
  }

  /** `gzipCompressionStrategy(data)`. */
  function GzipCompressionStrategy(data: string): (c: Compressed)
    ensures Strings.StartsWith(c.result, "Compressed using ")
  {
    var c := Compressed("Compressing using GZIP algorithm", "Compressed using GZIP");
    assert c.result[..|"Compressed using "|] == "Compressed using ";
    c
  }

  /** Both strategies ignore their data, and they differ from each other. */
  lemma StrategiesIgnoreData(a: string, b: string)
    ensures ZipCompressionStrategy(a) == ZipCompressionStrategy(b)
    ensures GzipCompressionStrategy(a) == GzipCompressionStrategy(b)
    ensures ZipCompressionStrategy(a).result != GzipCompressionStrategy(b).result
  {
    assert ZipCompressionStrategy(a).result[17] != GzipCompressionStrategy(b).result[17];
  }

  /** The object `compressionContext(strategy)` returns, with the captured strategy. */
  class Context {
    var strategy: Strategy

    /** `compressionContext(strategy)`. */
    constructor(strategy: Strategy)
      ensures this.strategy == strategy
    {
      this.strategy := strategy;
    }

    /** `setStrategy(newStrategy)`: later `compress` calls use `newStrategy`. */
    method SetStrategy(newStrategy: Strategy)
      modifies this
      ensures strategy == newStrategy
    {
      strategy := newStrategy;
    }

    /** `compress(data)`: the current strategy applied to `data`. */
    method Compress(data: string) returns (c: Compressed)
      ensures c == strategy(data)
    {
      c := strategy(data);
    }
  }

  /** The example usage: ZIP first, then GZIP after `setStrategy`, on the same data. */
  method ExampleUsage() returns (first: Compressed, second: Compressed)
    ensures first.result == "Compressed using ZIP"
    ensures second.result == "Compressed using GZIP"
  {
    var data := "Lorem ipsum dolor sit amet";
    var context := new Context(ZipCompressionStrategy);
    first := context.Compress(data);
    context.SetStrategy(GzipCompressionStrategy);
    second := context.Compress(data);
  }
}
