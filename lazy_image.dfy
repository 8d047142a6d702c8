/**
 * The lazy image proxy of `10_exercises/06_exercise.js`: a `ProxyImage`
 * holds a file name and, from its first `display` on, the `RealImage` it
 * constructed, whose constructor loads the file from the server. The
 * console lines are returned as events.
 */
module LazyImage {

  /** What the program logs. */
  datatype Event = Note(text: string) | Loading(fileName: string) | Displaying(fileName: string)

  /** The console text of an event. */
  function Line(e: Event): string {
    match e
    case Note(text) => text
    case Loading(fileName) => "Loading image: " + fileName + " from server..."
    case Displaying(fileName) => "Displaying image: " + fileName
  }

  /** `RealImage`: constructing one loads the file. */
  class RealImage {
    const fileName: string

    /**
     * `new RealImage(fileName)`. The load the constructor prints is not
     * produced here: it is the `Loading` trace event that the creating
     * `ProxyImage.Display` returns.
     */
    constructor(fileName: string)
      ensures this.fileName == fileName
    {
      this.fileName := fileName;
    }

    /** `display()`. */
    method Display() returns (events: seq<Event>)
      ensures events == [Displaying(fileName)]
    {
      events := [Displaying(fileName)];
    }
  }

  /** The events one `ProxyImage.display` logs, given whether the real image already exists. */
  function DisplayEvents(loaded: bool, fileName: string): (events: seq<Event>)
    ensures |events| >= 1 && events[|events| - 1] == Displaying(fileName)
    ensures loaded <==> |events| == 1
  {
    if loaded then [Displaying(fileName)] else [Loading(fileName), Displaying(fileName)]
  }

  /** `ProxyImage`: the real image is created on demand. */
  class ProxyImage {
    const fileName: string
    var realImage: RealImage?

    /** A created real image is for the proxy's own file. */
    predicate Valid()
      reads this
    {
      realImage != null ==> realImage.fileName == fileName
    }

    /** `new ProxyImage(fileName)`: nothing is loaded. */
    constructor(fileName: string)
      ensures this.fileName == fileName && realImage == null && Valid()
    {
      this.fileName := fileName;
      realImage := null;
    }

    /** `display()`: loads on the first call only, and displays on every call. */
    method Display() returns (events: seq<Event>)
      requires Valid()
      modifies this
      ensures Valid() && realImage != null
      ensures old(realImage) != null ==> realImage == old(realImage)
      ensures old(realImage) == null ==> fresh(realImage)
      ensures events == DisplayEvents(old(realImage) != null, fileName)
    {
      var loads := [];
      if realImage == null {
        realImage := new RealImage(fileName);
        loads := [Loading(fileName)];
      }
      var shown := realImage.Display();
      events := loads + shown;
    }
  }

  /** `n` copies of an event. */
  function Repeat(e: Event, n: nat): (r: seq<Event>)
    ensures |r| == n && forall i :: 0 <= i < n ==> r[i] == e
  {
    if n == 0 then [] else [e] + Repeat(e, n - 1)
  }

  /** The events of `n` consecutive `display` calls on one proxy. */
  function Displays(loaded: bool, fileName: string, n: nat): seq<Event>
    decreases n
  {
    if n == 0 then [] else DisplayEvents(loaded, fileName) + Displays(true, fileName, n - 1)
  }

  /** Once loaded, every `display` only displays. */
  lemma {:induction false} LoadedDisplaysOnly(fileName: string, n: nat)
    ensures Displays(true, fileName, n) == Repeat(Displaying(fileName), n)
  {
    if n > 0 {
      LoadedDisplaysOnly(fileName, n - 1);
    }
  }

  /** A fresh proxy loads exactly once, before its first display, however often it is displayed. */
  lemma LoadsAtMostOnce(fileName: string, n: nat)
    ensures Displays(false, fileName, n) == if n == 0 then [] else [Loading(fileName)] + Repeat(Displaying(fileName), n)
  {
    if n > 0 {
      LoadedDisplaysOnly(fileName, n - 1);
    }
  }

  /** The client code: two proxies, nothing loaded until the first display, and `photo1.png` loaded once. */
  method ClientCode() returns (events: seq<Event>)
    ensures events == [Note("Images created but not loaded yet."),
                       Loading("photo1.png"), Displaying("photo1.png"), Displaying("photo1.png"),
                       Loading("photo2.png"), Displaying("photo2.png")]
  {
    var image1 := new ProxyImage("photo1.png");
    var image2 := new ProxyImage("photo2.png");
    events := [Note("Images created but not loaded yet.")];
    var e1 := image1.Display();
    var e2 := image1.Display();
    var e3 := image2.Display();
    events := events + e1 + e2 + e3;
  }
}
