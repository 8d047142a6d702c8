/**
 * The prototype pattern of `01A_prototypePattern/prototype.js`: objects made
 * with `Object.create(proto)`, own `title` and `content` properties that
 * assignments add or overwrite, and property reads that walk the prototype
 * chain to the nearest object owning the property. A prototype link never
 * changes after creation, so it is a `const` together with the ghost list
 * of the object's ancestors.
 */
module Prototype {
  import opened Wrappers

  /** The two data properties the documents use. */
  datatype Prop = Title | Content

  /** A JavaScript object with its prototype link and its own `title`/`content`, absent as `None`. */
  class JsObject {
    const proto: JsObject?
    ghost const ancestors: seq<JsObject>
    var title: Option<string>
    var content: Option<string>

    /** The ancestors are the prototype chain: the prototype, its prototype, and so on. */
    ghost predicate Valid()
      decreases |ancestors|
    {
      if proto == null then ancestors == []
      else |ancestors| > 0 && ancestors == [proto] + proto.ancestors && proto.Valid()
    }

    /** `Object.create(proto)`: a new object without own properties. */
    constructor Create(proto: JsObject?)
      requires proto != null ==> proto.Valid()
      ensures this.proto == proto && title == None && content == None
      ensures Valid()
    {
      this.proto := proto;
      ancestors := if proto == null then [] else [proto] + proto.ancestors;
      title := None;
      content := None;
    }

    /** `clone()`: `Object.create(this)`, which reads every property through to this object. */
    method Clone() returns (c: JsObject)
      requires Valid()
      ensures fresh(c) && c.proto == this && c.title == None && c.content == None && c.Valid()
      ensures forall p :: Get(c, p) == Get(this, p)
    {
      c := new JsObject.Create(this);
    }

    /** `obj.title = v` or `obj.content = v`: sets the own property. */
    method Assign(p: Prop, v: string)
      modifies this
      ensures Own(this, p) == Some(v)
      ensures forall q :: q != p ==> Own(this, q) == old(Own(this, q))
    {
      if p == Title {
        title := Some(v);
      } else {
        content := Some(v);
      }
    }
  }

  /** The own value of a property. */
  function Own(o: JsObject, p: Prop): Option<string>
    reads o
  {
    if p == Title then o.title else o.content
  }

  /** The objects a property read may visit. */
  ghost function Footprint(o: JsObject): set<object> {
    {o} + set a | a in o.ancestors
  }

  /** The object and its prototype chain, nearest first. */
  ghost function Chain(o: JsObject): seq<JsObject> {
    [o] + o.ancestors
  }

  /** `o[p]`: the own value, or else the value read on the prototype; `undefined` off the end of the chain. */
  function Get(o: JsObject, p: Prop): Option<string>
    requires o.Valid()
    reads Footprint(o)
    decreases |o.ancestors|
  {
    if Own(o, p).Some? then Own(o, p)
    else if o.proto == null then None
    else
      assert o.ancestors == [o.proto] + o.proto.ancestors;
      Get(o.proto, p)
  }

  /** The i-th object on the chain owns `p` and no nearer object does. */
  ghost predicate NearestOwner(o: JsObject, p: Prop, i: int)
    reads Chain(o)
  {
    0 <= i < |Chain(o)| && Own(Chain(o)[i], p).Some? &&
    forall j :: 0 <= j < i ==> Own(Chain(o)[j], p).None?
  }

  /**
   * A read yields the value of the nearest object on the chain that owns
   * the property, and `undefined` exactly when none does.
   */
  lemma {:induction false} GetIsNearest(o: JsObject, p: Prop)
    requires o.Valid()
    ensures Get(o, p).None? <==> forall a :: a in Chain(o) ==> Own(a, p).None?
    ensures Get(o, p).Some? ==> exists i :: NearestOwner(o, p, i) && Own(Chain(o)[i], p) == Get(o, p)
    decreases |o.ancestors|
  {
    if Own(o, p).None? && o.proto != null {
      assert o.ancestors == [o.proto] + o.proto.ancestors;
      GetIsNearest(o.proto, p);
      assert Chain(o) == [o] + Chain(o.proto);
      if Get(o, p).Some? {
        var i :| NearestOwner(o.proto, p, i) && Own(Chain(o.proto)[i], p) == Get(o, p);
        assert Chain(o)[i + 1] == Chain(o.proto)[i];
        assert forall j :: 0 < j < i + 1 ==> Chain(o)[j] == Chain(o.proto)[j - 1];
        assert NearestOwner(o, p, i + 1);
      }
    } else {
      assert Chain(o)[0] == o;
    }
  }

  /** A property an object does not own is read from its prototype, whatever the prototype holds now. */
  lemma ReadThrough(o: JsObject, p: Prop)
    requires o.Valid() && o.proto != null && Own(o, p).None?
    ensures Get(o, p) == Get(o.proto, p)
  {
  }

  /** An own property shadows whatever the prototype chain holds. */
  lemma OwnShadows(o: JsObject, p: Prop)
    requires o.Valid() && Own(o, p).Some?
    ensures Get(o, p) == Own(o, p)
  {
  }

  /** `documentTemplatePrototype`: no own `title` or `content`, and `Object.prototype` above it. */
  method DocumentTemplatePrototype() returns (proto: JsObject)
    ensures fresh(proto) && proto.Valid() && proto.proto == null
    ensures forall p :: Get(proto, p) == None
  {
    proto := new JsObject.Create(null);
  }

  /** `createDocumentTemplate(title, content)`: an object over `proto` with both properties its own. */
  method CreateDocumentTemplate(proto: JsObject, title: string, content: string) returns (doc: JsObject)
    requires proto.Valid()
    ensures fresh(doc) && doc.Valid() && doc.proto == proto
    ensures Get(doc, Title) == Some(title) && Get(doc, Content) == Some(content)
  {
    doc := new JsObject.Create(proto);
    doc.Assign(Title, title);
    doc.Assign(Content, content);
  }

  /** `` `${v}` `` of a property read, `"undefined"` when absent. */
  function Show(v: Option<string>): string {
    if v.Some? then v.value else "undefined"
  }

  /** The text of `toString()` for the values it reads. */
  function Render(title: Option<string>, content: Option<string>): string {
    "Document Title: " + Show(title) + ",\n content:" + Show(content)
  }

  /** `toString()` of an object. */
  function ToString(o: JsObject): string
    requires o.Valid()
    reads Footprint(o)
  {
    Render(Get(o, Title), Get(o, Content))
  }

  /**
   * The client code on any texts: a clone made before the master's
   * assignments shows the master's new values, and a clone that assigns
   * its own shows those and leaves the master as it was.
   */
  method CloneAndShadow(draftTitle: string, draftContent: string, title1: string, content1: string,
                        title2: string, content2: string)
    returns (first: string, second: string, master: string)
    ensures first == master == Render(Some(title1), Some(content1))
    ensures second == Render(Some(title2), Some(content2))
  {
    var proto := DocumentTemplatePrototype();
    var masterDocument := CreateDocumentTemplate(proto, draftTitle, draftContent);
    var firstClone := masterDocument.Clone();
    masterDocument.Assign(Title, title1);
    masterDocument.Assign(Content, content1);
    OwnShadows(masterDocument, Title);
    OwnShadows(masterDocument, Content);
    var secondClone := masterDocument.Clone();
    secondClone.Assign(Title, title2);
    secondClone.Assign(Content, content2);
    OwnShadows(secondClone, Title);
    OwnShadows(secondClone, Content);
    ReadThrough(firstClone, Title);
    ReadThrough(firstClone, Content);
    first := ToString(firstClone);
    second := ToString(secondClone);
    master := ToString(masterDocument);
  }

  /** The client code: the finance report shows the master's later values, the HR report its own. */
  method ClientCode() returns (finance: string, hr: string, master: string)
    ensures finance == master
    ensures finance == Render(Some("Finance Report"), Some("This is a finance-specific report."))
    ensures hr == Render(Some("HR Report"), Some("This is an HR-specific report."))
  {
    finance, hr, master := CloneAndShadow("please write your title here...", "give content info here",
      "Finance Report", "This is a finance-specific report.", "HR Report", "This is an HR-specific report.");
  }
}
