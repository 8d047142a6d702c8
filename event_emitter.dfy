/**
 * The event emitter of `07_observer/example2.js` and the news publisher
 * built on it. The emitter's closure-held `events` object maps an event
 * name to its listeners in registration order; a listener is modelled by
 * the console lines it prints for the data it receives.
 */
module EventEmitter {

  /** A callback: the lines it prints when called with `data`. */
  type Listener = string -> seq<string>

  /** `events[event]`, or no listeners where the object has no such key. */
  function ListenersOf(events: map<string, seq<Listener>>, event: string): seq<Listener> {
    if event in events then events[event] else []
  }

  /** The lines of calling each listener with `data`, in registration order. */
  function EmitLines(listeners: seq<Listener>, data: string): seq<string> {
    if listeners == [] then [] else EmitLines(listeners[..|listeners| - 1], data) + listeners[|listeners| - 1](data)
  }

  /** Listeners registered later are called later. */
  lemma {:induction false} EmitLinesAppend(a: seq<Listener>, b: seq<Listener>, data: string)
    ensures EmitLines(a + b, data) == EmitLines(a, data) + EmitLines(b, data)
    decreases |b|
  {
    if b == [] {
      assert a + b == a;
    } else {
      var n := |b| - 1;
      assert (a + b)[..|a + b| - 1] == a + b[..n];
      EmitLinesAppend(a, b[..n], data);
    }
  }

  /** The object returned by `createEventEmitter()`. */
  class Emitter {
    var events: map<string, seq<Listener>>

    /** `createEventEmitter()`: `events` starts as `{}`. */
    constructor()
      ensures events == map[]
    {
      events := map[];
    }

    /**
     * `on(event, listener)`: creates the list on first use and appends the
     * listener; the lists of other events are untouched.
     */
    method On(event: string, listener: Listener)
      modifies this
      ensures event in events && events[event] == ListenersOf(old(events), event) + [listener]
      ensures forall e :: e != event ==> ListenersOf(events, e) == ListenersOf(old(events), e)
      ensures events.Keys == old(events).Keys + {event}
    {
      if event !in events {
        events := events[event := []];
      }
      events := events[event := events[event] + [listener]];
    }

    /** `emit(event, data)`: calls each listener of `event` with `data`, in registration order; none for an unknown event. */
    method Emit(event: string, data: string) returns (lines: seq<string>)
      ensures lines == EmitLines(ListenersOf(events, event), data)
      ensures event !in events ==> lines == []
    {
      lines := [];
      if event in events {
        var listeners := events[event];
        var i := 0;
        while i < |listeners|
          invariant 0 <= i <= |listeners|
          invariant lines == EmitLines(listeners[..i], data)
        {
          assert listeners[..i + 1][..i] == listeners[..i];
          lines := lines + listeners[i](data);
          i := i + 1;
        }
        assert listeners[..i] == listeners;
      }
    }
  }

  /** The one event the news publisher uses. */
  const NewsPublished := "news published"

  /** `console.log("Publishing news:", news)`: the arguments joined by a space. */
  function PublishingLine(news: string): string {
    "Publishing news: " + news
  }

  /** The object returned by `createNewsPublisher()`, over its own emitter. */
  class NewsPublisher {
    const emitter: Emitter

    /** Only `"news published"` ever has listeners. */
    ghost predicate Valid()
      reads this, emitter
    {
      forall e :: e in emitter.events ==> e == NewsPublished
    }

    /** `createNewsPublisher()`. */
    constructor()
      ensures Valid() && fresh(emitter) && emitter.events == map[]
    {
      emitter := new Emitter();
    }

    /** `onNews(listener)`: registers on `"news published"`. */
    method OnNews(listener: Listener)
      requires Valid()
      modifies emitter
      ensures Valid()
      ensures ListenersOf(emitter.events, NewsPublished) == ListenersOf(old(emitter.events), NewsPublished) + [listener]
    {
      emitter.On(NewsPublished, listener);
    }

    /** `publishNews(news)`: logs the news, then emits it on `"news published"`. */
    method PublishNews(news: string) returns (lines: seq<string>)
      ensures lines == [PublishingLine(news)] + EmitLines(ListenersOf(emitter.events, NewsPublished), news)
    {
      var emitted := emitter.Emit(NewsPublished, news);
      lines := [PublishingLine(news)] + emitted;
    }
  }

  /** The first subscriber of the usage code. */
  function Subscriber1(news: string): seq<string> {
    ["Subscriber1 received news: " + news]
  }

  /** The second subscriber of the usage code. */
  function Subscriber2(news: string): seq<string> {
    ["Subscriber2 received news: " + news]
  }

  /** Two subscribers registered in turn hear a piece of news in that order, after the publisher's own line. */
  method PublishToTwo(news: string) returns (lines: seq<string>)
    ensures lines == [PublishingLine(news), "Subscriber1 received news: " + news, "Subscriber2 received news: " + news]
  {
    var publisher := new NewsPublisher();
    publisher.OnNews(Subscriber1);
    publisher.OnNews(Subscriber2);
    var listeners := ListenersOf(publisher.emitter.events, NewsPublished);
    assert listeners == [Subscriber1, Subscriber2] && listeners[..1] == [Subscriber1] && listeners[..1][..0] == [];
    assert EmitLines(listeners[..1], news) == Subscriber1(news);
    assert EmitLines(listeners, news) == Subscriber1(news) + Subscriber2(news);
    lines := publisher.PublishNews(news);
  }

  /** The usage code: `"NEW SCIENCE DISCOVERY"` reaches both subscribers. */
  method Usage() returns (lines: seq<string>)
    ensures lines == [PublishingLine("NEW SCIENCE DISCOVERY"),
                      "Subscriber1 received news: " + "NEW SCIENCE DISCOVERY",
                      "Subscriber2 received news: " + "NEW SCIENCE DISCOVERY"]
  {
    lines := PublishToTwo("NEW SCIENCE DISCOVERY");
  }
}
