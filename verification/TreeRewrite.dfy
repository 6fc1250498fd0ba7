/**
 * URL rewriting over recorded trees: full snapshots and mutation events. Only the values of a few
 * attributes, and text inside a style element, may change.
 */
module TreeRewriteModel {
  import opened Protocol
  import CssModel

  const NODE_ELEMENT := 2
  const NODE_TEXT := 3

  datatype StyleValue = Plain(text: string) | Prioritized(first: string, rest: seq<string>) | OtherStyle(tag: int)

  /** An attribute value: a string, a style object, or any other JSON value. */
  datatype Value = Text(text: string) | Style(properties: seq<(string, StyleValue)>) | OtherValue(tag: int)

  datatype Attr = Attr(name: string, value: Value)

  /** `rest` stands for the fields no rewriting looks at. `attributes` is nothing when it is not a record. */
  datatype Node = Node(
    kind: int,
    id: Option<int>,
    tagName: Option<string>,
    textContent: Option<string>,
    attributes: Option<seq<Attr>>,
    children: seq<Node>,
    rest: string)

  /** The three string rewriters: CSS text, srcset, and a whole URL. */
  datatype Rewriters = Rewriters(css: string -> string, srcset: string -> string, url: string -> string)

  /** The rewriters that scan for URLs and replace them. */
  function Scanning(env: CssModel.Env, isSpace: char -> bool): Rewriters {
    Rewriters(s => CssModel.RewrittenCss(env, s), s => CssModel.RewrittenSrcset(env, s),
              s => CssModel.RewrittenUrl(env, isSpace, s))
  }

  function Lower(s: string): string { CssModel.Lower(s) }

  // ---- Attributes ----

  predicate IsMediaTag(tag: Option<string>) {
    tag == Some("video") || tag == Some("audio") || tag == Some("source")
  }

  predicate IsBlob(s: string) {
    CssModel.StartsWithLower(s, "blob:")
  }

  function RewriteStyleValue(rw: Rewriters, v: StyleValue): StyleValue {
    match v
    case Plain(text) => Plain(rw.css(text))
    case Prioritized(first, rest) => Prioritized(rw.css(first), rest)
    case OtherStyle(_) => v
  }

  function RewriteStyle(rw: Rewriters, v: Value): Value {
    match v
    case Text(text) => Text(rw.css(text))
    case Style(ps) => Style(seq(|ps|, i requires 0 <= i < |ps| => (ps[i].0, RewriteStyleValue(rw, ps[i].1))))
    case OtherValue(_) => v
  }

  function RewriteAttr(rw: Rewriters, a: Attr, tag: Option<string>): Attr {
    var name := Lower(a.name);
    if name == "src" && a.value.Text? && IsBlob(a.value.text) && IsMediaTag(tag) then a
    else if (name == "src" || name == "poster" || name == "xlink:href") && a.value.Text? then
      Attr(a.name, Text(rw.url(a.value.text)))
    else if name == "srcset" && a.value.Text? then Attr(a.name, Text(rw.srcset(a.value.text)))
    else if name == "style" then Attr(a.name, RewriteStyle(rw, a.value))
    else if name == "_csstext" && a.value.Text? then Attr(a.name, Text(rw.css(a.value.text)))
    else a
  }

  function RewriteAttributes(rw: Rewriters, attrs: Option<seq<Attr>>, tag: Option<string>): Option<seq<Attr>> {
    if attrs.None? then None
    else
      var a := attrs.value;
      Some(seq(|a|, i requires 0 <= i < |a| => RewriteAttr(rw, a[i], tag)))
  }

  // ---- Nodes ----

  function TagOf(n: Node): Option<string> {
    if n.tagName.Some? then Some(Lower(n.tagName.value)) else None
  }

  predicate IsStyleText(n: Node, insideStyle: bool) {
    n.kind == NODE_TEXT && insideStyle && n.textContent.Some?
  }

  predicate IsStyleElement(n: Node) {
    n.kind == NODE_ELEMENT && TagOf(n) == Some("style")
  }

  function RewriteNode(rw: Rewriters, n: Node, insideStyle: bool): Node {
    if IsStyleText(n, insideStyle) then n.(textContent := Some(rw.css(n.textContent.value)))
    else
      n.(attributes := RewriteAttributes(rw, n.attributes, TagOf(n)),
         children := seq(|n.children|, i requires 0 <= i < |n.children| =>
                         RewriteNode(rw, n.children[i], IsStyleElement(n))))
  }

  // ---- The tag map ----

  predicate IsTagged(n: Node) {
    n.kind == NODE_ELEMENT && n.id.Some? && n.tagName.Some? && n.tagName.value != ""
  }

  /** The walk records tags as it goes, before it looks at the children. */
  function TagNode(tags: map<int, string>, n: Node, insideStyle: bool): map<int, string>
    decreases n, |n.children| + 1
  {
    var own := if IsTagged(n) then tags[n.id.value := Lower(n.tagName.value)] else tags;
    if IsStyleText(n, insideStyle) then own else TagAll(own, n, 0, IsStyleElement(n))
  }

  function TagAll(tags: map<int, string>, parent: Node, k: nat, insideStyle: bool): map<int, string>
    requires k <= |parent.children|
    decreases parent, |parent.children| - k
  {
    if k == |parent.children| then tags
    else TagAll(TagNode(tags, parent.children[k], insideStyle), parent, k + 1, insideStyle)
  }

  /** The visited elements in document order, with their lower-case tags. */
  function Elements(n: Node, insideStyle: bool): seq<(int, string)>
    decreases n, |n.children| + 1
  {
    (if IsTagged(n) then [(n.id.value, Lower(n.tagName.value))] else [])
    + (if IsStyleText(n, insideStyle) then [] else ElementsOf(n, 0, IsStyleElement(n)))
  }

  function ElementsOf(parent: Node, k: nat, insideStyle: bool): seq<(int, string)>
    requires k <= |parent.children|
    decreases parent, |parent.children| - k
  {
    if k == |parent.children| then []
    else Elements(parent.children[k], insideStyle) + ElementsOf(parent, k + 1, insideStyle)
  }

  function SetAll(tags: map<int, string>, elements: seq<(int, string)>): map<int, string>
    decreases |elements|
  {
    if elements == [] then tags else SetAll(tags[elements[0].0 := elements[0].1], elements[1..])
  }

  lemma {:induction false} SetAllConcat(tags: map<int, string>, a: seq<(int, string)>, b: seq<(int, string)>)
    ensures SetAll(tags, a + b) == SetAll(SetAll(tags, a), b)
    decreases |a|
  {
    if a == [] {
      assert a + b == b;
    } else {
      SetAllConcat(tags[a[0].0 := a[0].1], a[1..], b);
      assert (a + b)[1..] == a[1..] + b;
    }
  }

  lemma {:induction false} TagNodeSetsElements(tags: map<int, string>, n: Node, insideStyle: bool)
    ensures TagNode(tags, n, insideStyle) == SetAll(tags, Elements(n, insideStyle))
    decreases n, |n.children| + 1
  {
    var own := if IsTagged(n) then [(n.id.value, Lower(n.tagName.value))] else [];
    var below := if IsStyleText(n, insideStyle) then [] else ElementsOf(n, 0, IsStyleElement(n));
    SetAllConcat(tags, own, below);
    assert own == [] || own[1..] == [];
    if !IsStyleText(n, insideStyle) {
      TagAllSetsElements(SetAll(tags, own), n, 0, IsStyleElement(n));
    }
  }

  lemma {:induction false} TagAllSetsElements(tags: map<int, string>, parent: Node, k: nat, insideStyle: bool)
    requires k <= |parent.children|
    ensures TagAll(tags, parent, k, insideStyle) == SetAll(tags, ElementsOf(parent, k, insideStyle))
    decreases parent, |parent.children| - k
  {
    if k < |parent.children| {
      var c := parent.children[k];
      TagNodeSetsElements(tags, c, insideStyle);
      TagAllSetsElements(TagNode(tags, c, insideStyle), parent, k + 1, insideStyle);
      SetAllConcat(tags, Elements(c, insideStyle), ElementsOf(parent, k + 1, insideStyle));
    }
  }

  /** The map holds the last tag set for an id, and what it held before for the other ids. */
  lemma {:induction false} SetAllHolds(tags: map<int, string>, elements: seq<(int, string)>, id: int)
    ensures var out := SetAll(tags, elements);
      && (id in out <==> id in tags || exists i :: 0 <= i < |elements| && elements[i].0 == id)
      && ((forall i :: 0 <= i < |elements| ==> elements[i].0 != id) && id in tags ==> out[id] == tags[id])
    decreases |elements|
  {
    if elements != [] {
      SetAllHolds(tags[elements[0].0 := elements[0].1], elements[1..], id);
      assert forall i :: 1 <= i < |elements| ==> elements[1..][i - 1] == elements[i];
      if exists i :: 0 <= i < |elements[1..]| && elements[1..][i].0 == id {
        var i :| 0 <= i < |elements[1..]| && elements[1..][i].0 == id;
        assert elements[i + 1].0 == id;
      }
    }
  }

  predicate LastOfId(elements: seq<(int, string)>, k: nat)
    requires k < |elements|
  {
    forall i :: k < i < |elements| ==> elements[i].0 != elements[k].0
  }

  lemma {:induction false} SetAllLast(tags: map<int, string>, elements: seq<(int, string)>, k: nat)
    requires k < |elements| && LastOfId(elements, k)
    ensures var out := SetAll(tags, elements); elements[k].0 in out && out[elements[k].0] == elements[k].1
    decreases |elements|
  {
    var next := tags[elements[0].0 := elements[0].1];
    if k == 0 {
      SetAllHolds(next, elements[1..], elements[0].0);
    } else {
      assert elements[1..][k - 1] == elements[k];
      SetAllLast(next, elements[1..], k - 1);
    }
  }

  // ---- Erasure ----

  function EraseStyleValue(v: StyleValue): StyleValue {
    match v
    case Plain(_) => Plain("")
    case Prioritized(_, rest) => Prioritized("", rest)
    case OtherStyle(_) => v
  }

  function EraseValue(v: Value): Value {
    match v
    case Text(_) => Text("")
    case Style(ps) => Style(seq(|ps|, i requires 0 <= i < |ps| => (ps[i].0, EraseStyleValue(ps[i].1))))
    case OtherValue(_) => v
  }

  predicate HoldsUrl(name: string) {
    var n := Lower(name);
    n == "src" || n == "poster" || n == "xlink:href" || n == "srcset" || n == "style" || n == "_csstext"
  }

  function EraseAttr(a: Attr): Attr {
    if HoldsUrl(a.name) then Attr(a.name, EraseValue(a.value)) else a
  }

  function EraseAttributes(attrs: Option<seq<Attr>>): Option<seq<Attr>> {
    if attrs.None? then None
    else
      var a := attrs.value;
      Some(seq(|a|, i requires 0 <= i < |a| => EraseAttr(a[i])))
  }

  /** The tree without the texts a rewrite may change. */
  function Erase(n: Node, insideStyle: bool): Node {
    if IsStyleText(n, insideStyle) then n.(textContent := Some(""))
    else
      n.(attributes := EraseAttributes(n.attributes),
         children := seq(|n.children|, i requires 0 <= i < |n.children| => Erase(n.children[i], IsStyleElement(n))))
  }

  lemma StyleErased(rw: Rewriters, v: Value)
    ensures EraseValue(RewriteStyle(rw, v)) == EraseValue(v)
  {}

  lemma AttributesErased(rw: Rewriters, attrs: Option<seq<Attr>>, tag: Option<string>)
    ensures EraseAttributes(RewriteAttributes(rw, attrs, tag)) == EraseAttributes(attrs)
  {
    if attrs.Some? {
      forall i | 0 <= i < |attrs.value|
        ensures EraseAttr(RewriteAttr(rw, attrs.value[i], tag)) == EraseAttr(attrs.value[i])
      {
        StyleErased(rw, attrs.value[i].value);
      }
      assert EraseAttributes(RewriteAttributes(rw, attrs, tag)).value == EraseAttributes(attrs).value;
    }
  }

  /**
   * Rewriting keeps everything but URL texts: kinds, ids, tags, attribute names and order, style
   * properties, child order, and text outside style elements.
   */
  lemma {:induction false} RewriteKeepsStructure(rw: Rewriters, n: Node, insideStyle: bool)
    ensures Erase(RewriteNode(rw, n, insideStyle), insideStyle) == Erase(n, insideStyle)
    decreases n
  {
    if !IsStyleText(n, insideStyle) {
      AttributesErased(rw, n.attributes, TagOf(n));
      var t := RewriteNode(rw, n, insideStyle);
      assert !IsStyleText(t, insideStyle) && IsStyleElement(t) == IsStyleElement(n);
      forall i | 0 <= i < |n.children|
        ensures Erase(t.children[i], IsStyleElement(n)) == Erase(n.children[i], IsStyleElement(n))
      {
        RewriteKeepsStructure(rw, n.children[i], IsStyleElement(n));
      }
      assert Erase(t, insideStyle).children == Erase(n, insideStyle).children;
    }
  }

  // ---- When a tree is unchanged ----

  /** A condition on each text, by the rewriter that meets it. */
  datatype TextTest = TextTest(css: string -> bool, srcset: string -> bool, url: string -> bool)

  predicate StyleMeets(test: TextTest, v: Value) {
    match v
    case Text(text) => test.css(text)
    case Style(ps) =>
      forall i :: 0 <= i < |ps| ==>
        (ps[i].1.Plain? ==> test.css(ps[i].1.text)) && (ps[i].1.Prioritized? ==> test.css(ps[i].1.first))
    case OtherValue(_) => true
  }

  predicate AttrMeets(test: TextTest, a: Attr, tag: Option<string>) {
    var name := Lower(a.name);
    if name == "src" && a.value.Text? && IsBlob(a.value.text) && IsMediaTag(tag) then true
    else if (name == "src" || name == "poster" || name == "xlink:href") && a.value.Text? then test.url(a.value.text)
    else if name == "srcset" && a.value.Text? then test.srcset(a.value.text)
    else if name == "style" then StyleMeets(test, a.value)
    else if name == "_csstext" && a.value.Text? then test.css(a.value.text)
    else true
  }

  /** The texts of the tree that a rewriter meets: URL attributes, styles, and text inside a style element. */
  predicate TreeMeets(test: TextTest, n: Node, insideStyle: bool) {
    if IsStyleText(n, insideStyle) then test.css(n.textContent.value)
    else
      && (n.attributes.Some? ==>
            forall i :: 0 <= i < |n.attributes.value| ==> AttrMeets(test, n.attributes.value[i], TagOf(n)))
      && forall i :: 0 <= i < |n.children| ==> TreeMeets(test, n.children[i], IsStyleElement(n))
  }

  /** The text survives its rewriter. */
  function Survives(rw: Rewriters): TextTest {
    TextTest(s => rw.css(s) == s, s => rw.srcset(s) == s, s => rw.url(s) == s)
  }

  lemma StyleKeptIff(rw: Rewriters, v: Value)
    ensures RewriteStyle(rw, v) == v <==> StyleMeets(Survives(rw), v)
  {
    if v.Style? {
      var ps, qs := v.properties, RewriteStyle(rw, v).properties;
      if StyleMeets(Survives(rw), v) {
        assert qs == ps;
      } else if qs == ps {
        forall i | 0 <= i < |ps|
          ensures RewriteStyleValue(rw, ps[i].1) == ps[i].1
        {
          assert qs[i] == ps[i];
        }
      }
    }
  }

  lemma AttributesKeptIff(rw: Rewriters, attrs: seq<Attr>, tag: Option<string>)
    ensures RewriteAttributes(rw, Some(attrs), tag) == Some(attrs) <==>
      forall i :: 0 <= i < |attrs| ==> AttrMeets(Survives(rw), attrs[i], tag)
  {
    var out := RewriteAttributes(rw, Some(attrs), tag).value;
    forall i | 0 <= i < |attrs|
      ensures out[i] == attrs[i] <==> AttrMeets(Survives(rw), attrs[i], tag)
    {
      StyleKeptIff(rw, attrs[i].value);
    }
    assert out == attrs <==> forall i :: 0 <= i < |attrs| ==> out[i] == attrs[i];
  }

  /** A tree is unchanged exactly when every text of its own that a rewriter meets survives it. */
  lemma {:induction false} TreeKeptIff(rw: Rewriters, n: Node, insideStyle: bool)
    ensures RewriteNode(rw, n, insideStyle) == n <==> TreeMeets(Survives(rw), n, insideStyle)
    decreases n
  {
    if !IsStyleText(n, insideStyle) {
      if n.attributes.Some? { AttributesKeptIff(rw, n.attributes.value, TagOf(n)); }
      var out := RewriteNode(rw, n, insideStyle).children;
      forall i | 0 <= i < |n.children|
        ensures out[i] == n.children[i] <==> TreeMeets(Survives(rw), n.children[i], IsStyleElement(n))
      {
        TreeKeptIff(rw, n.children[i], IsStyleElement(n));
      }
      assert out == n.children <==> forall i :: 0 <= i < |n.children| ==> out[i] == n.children[i];
    }
  }

  // ---- Blob sources in a tree ----

  predicate IsBlobSource(a: Attr) {
    Lower(a.name) == "src" && a.value.Text? && IsBlob(a.value.text)
  }

  /** Every blob source of a media element of the tree stands unchanged in the other tree. */
  predicate BlobsKept(n: Node, t: Node, insideStyle: bool) {
    IsStyleText(n, insideStyle)
    || (&& (n.attributes.Some? && IsMediaTag(TagOf(n)) ==>
              && t.attributes.Some? && |t.attributes.value| == |n.attributes.value|
              && forall i :: 0 <= i < |n.attributes.value| && IsBlobSource(n.attributes.value[i]) ==>
                   t.attributes.value[i] == n.attributes.value[i])
        && |t.children| == |n.children|
        && forall i :: 0 <= i < |n.children| ==> BlobsKept(n.children[i], t.children[i], IsStyleElement(n)))
  }

  /** Rewriting a tree keeps the blob source of every video, audio and source element in it. */
  lemma {:induction false} TreeKeepsBlobs(rw: Rewriters, n: Node, insideStyle: bool)
    ensures BlobsKept(n, RewriteNode(rw, n, insideStyle), insideStyle)
    decreases n
  {
    if !IsStyleText(n, insideStyle) {
      forall i | 0 <= i < |n.children|
        ensures BlobsKept(n.children[i], RewriteNode(rw, n.children[i], IsStyleElement(n)), IsStyleElement(n))
      {
        TreeKeepsBlobs(rw, n.children[i], IsStyleElement(n));
      }
    }
  }

  // ---- Events ----

  datatype AttrMutation = AttrMutation(id: int, attributes: Option<seq<Attr>>)

  datatype Addition = Addition(node: Node, rest: string)

  datatype RecordedEvent =
    | FullSnapshot(node: Node, rest: string)
    | Mutation(attributes: seq<AttrMutation>, adds: seq<Addition>, rest: string)
    | OtherEvent(rest: string)

  function KnownTag(tags: map<int, string>, id: int): Option<string> {
    if id in tags then Some(tags[id]) else None
  }

  function RewriteEvent(rw: Rewriters, tags: map<int, string>, e: RecordedEvent): RecordedEvent {
    match e
    case FullSnapshot(node, rest) => RecordedEvent.FullSnapshot(RewriteNode(rw, node, false), rest)
    case Mutation(ms, adds, rest) =>
      Mutation(seq(|ms|, i requires 0 <= i < |ms| =>
                   AttrMutation(ms[i].id, RewriteAttributes(rw, ms[i].attributes, KnownTag(tags, ms[i].id)))),
               seq(|adds|, i requires 0 <= i < |adds| => Addition(RewriteNode(rw, adds[i].node, false), adds[i].rest)),
               rest)
    case OtherEvent(_) => e
  }

  function TagAdds(tags: map<int, string>, adds: seq<Addition>): map<int, string>
    decreases |adds|
  {
    if adds == [] then tags else TagAdds(TagNode(tags, adds[0].node, false), adds[1..])
  }

  /** A snapshot forgets the tags of the tree it replaces. */
  function TagsAfter(tags: map<int, string>, e: RecordedEvent): map<int, string> {
    match e
    case FullSnapshot(node, _) => TagNode(map[], node, false)
    case Mutation(_, adds, _) => TagAdds(tags, adds)
    case OtherEvent(_) => tags
  }

  function EraseEvent(e: RecordedEvent): RecordedEvent {
    match e
    case FullSnapshot(node, rest) => RecordedEvent.FullSnapshot(Erase(node, false), rest)
    case Mutation(ms, adds, rest) =>
      Mutation(seq(|ms|, i requires 0 <= i < |ms| => AttrMutation(ms[i].id, EraseAttributes(ms[i].attributes))),
               seq(|adds|, i requires 0 <= i < |adds| => Addition(Erase(adds[i].node, false), adds[i].rest)), rest)
    case OtherEvent(_) => e
  }

  /** The same for whole events, whatever tags are known. */
  lemma EventKeepsStructure(rw: Rewriters, tags: map<int, string>, e: RecordedEvent)
    ensures EraseEvent(RewriteEvent(rw, tags, e)) == EraseEvent(e)
  {
    match e
    case FullSnapshot(node, _) => RewriteKeepsStructure(rw, node, false);
    case Mutation(ms, adds, _) =>
      var t := RewriteEvent(rw, tags, e);
      forall i | 0 <= i < |ms|
        ensures EraseAttributes(t.attributes[i].attributes) == EraseAttributes(ms[i].attributes)
      {
        AttributesErased(rw, ms[i].attributes, KnownTag(tags, ms[i].id));
      }
      forall i | 0 <= i < |adds|
        ensures Erase(t.adds[i].node, false) == Erase(adds[i].node, false)
      {
        RewriteKeepsStructure(rw, adds[i].node, false);
      }
      assert EraseEvent(t).adds == EraseEvent(e).adds && EraseEvent(t).attributes == EraseEvent(e).attributes;
    case OtherEvent(_) =>
  }

  // ---- Runs of events ----

  /** The tags known after a run of events, oldest first. */
  function TagsOver(tags: map<int, string>, events: seq<RecordedEvent>): map<int, string>
    decreases |events|
  {
    if events == [] then tags else TagsOver(TagsAfter(tags, events[0]), events[1..])
  }

  function AddedElements(adds: seq<Addition>): seq<(int, string)>
    decreases |adds|
  {
    if adds == [] then [] else Elements(adds[0].node, false) + AddedElements(adds[1..])
  }

  /** The elements recorded since the last full snapshot, that one included, in order. */
  function RecordedElements(sofar: seq<(int, string)>, events: seq<RecordedEvent>): seq<(int, string)>
    decreases |events|
  {
    if events == [] then sofar
    else
      var next := match events[0]
        case FullSnapshot(node, _) => Elements(node, false)
        case Mutation(_, adds, _) => sofar + AddedElements(adds)
        case OtherEvent(_) => sofar;
      RecordedElements(next, events[1..])
  }

  /** The tag of the last of these elements with the id. */
  function LastTag(elements: seq<(int, string)>, id: int): Option<string> {
    if elements == [] then None
    else
      var last := elements[|elements| - 1];
      if last.0 == id then Some(last.1) else LastTag(elements[..|elements| - 1], id)
  }

  lemma {:induction false} AddsSetElements(tags: map<int, string>, adds: seq<Addition>)
    ensures TagAdds(tags, adds) == SetAll(tags, AddedElements(adds))
    decreases |adds|
  {
    if adds != [] {
      TagNodeSetsElements(tags, adds[0].node, false);
      AddsSetElements(TagNode(tags, adds[0].node, false), adds[1..]);
      SetAllConcat(tags, Elements(adds[0].node, false), AddedElements(adds[1..]));
    }
  }

  lemma {:induction false} RunSetsElements(sofar: seq<(int, string)>, events: seq<RecordedEvent>)
    ensures TagsOver(SetAll(map[], sofar), events) == SetAll(map[], RecordedElements(sofar, events))
    decreases |events|
  {
    if events != [] {
      match events[0]
      case FullSnapshot(node, _) =>
        TagNodeSetsElements(map[], node, false);
        RunSetsElements(Elements(node, false), events[1..]);
      case Mutation(_, adds, _) =>
        AddsSetElements(SetAll(map[], sofar), adds);
        SetAllConcat(map[], sofar, AddedElements(adds));
        RunSetsElements(sofar + AddedElements(adds), events[1..]);
      case OtherEvent(_) => RunSetsElements(sofar, events[1..]);
    }
  }

  lemma {:induction false} SetAllKnows(elements: seq<(int, string)>, id: int)
    ensures KnownTag(SetAll(map[], elements), id) == LastTag(elements, id)
    decreases |elements|
  {
    if elements != [] {
      var n := |elements| - 1;
      SetAllKnows(elements[..n], id);
      SetAllConcat(map[], elements[..n], [elements[n]]);
      assert elements[..n] + [elements[n]] == elements && [elements[n]][1..] == [];
    }
  }

  /** After every run of events the tag known for an id is that of the last element recorded under it. */
  lemma RunTagsExact(events: seq<RecordedEvent>, id: int)
    ensures KnownTag(TagsOver(map[], events), id) == LastTag(RecordedElements([], events), id)
  {
    RunSetsElements([], events);
    SetAllKnows(RecordedElements([], events), id);
  }

  /**
   * After every run of events, a mutation that sets a blob source on an id keeps it exactly if the last
   * element recorded under that id since the last full snapshot is a video, audio or source element;
   * otherwise it is rewritten like any URL.
   */
  lemma RecordedMediaKeepsBlob(rw: Rewriters, events: seq<RecordedEvent>, e: RecordedEvent, m: nat, i: nat)
    requires e.Mutation? && m < |e.attributes| && e.attributes[m].attributes.Some? && i < |e.attributes[m].attributes.value|
    requires IsBlobSource(e.attributes[m].attributes.value[i])
    ensures var a := e.attributes[m].attributes.value[i];
      var t := RewriteEvent(rw, TagsOver(map[], events), e).attributes[m].attributes;
      t.Some? && |t.value| == |e.attributes[m].attributes.value|
      && t.value[i] == if IsMediaTag(LastTag(RecordedElements([], events), e.attributes[m].id)) then a
                       else Attr(a.name, Text(rw.url(a.value.text)))
  {
    RunTagsExact(events, e.attributes[m].id);
  }

  /** The tag of an id changes hands: a div added under a video's id exposes its blob source to rewriting. */
  lemma ReusedIdLosesBlob(rw: Rewriters, video: Node, div: Node, rest: string, add: string, e: RecordedEvent)
    requires video.kind == NODE_ELEMENT && video.tagName == Some("video") && video.children == [] && video.id.Some?
    requires div == video.(tagName := Some("div"))
    requires e.Mutation? && |e.attributes| == 1 && e.attributes[0].id == video.id.value
    requires e.attributes[0].attributes.Some? && |e.attributes[0].attributes.value| == 1
    requires IsBlobSource(e.attributes[0].attributes.value[0])
    ensures var a := e.attributes[0].attributes.value[0];
      var shown := [RecordedEvent.FullSnapshot(video, rest)];
      var reused := shown + [Mutation([], [Addition(div, add)], rest)];
      && RewriteEvent(rw, TagsOver(map[], shown), e).attributes[0].attributes == Some([a])
      && RewriteEvent(rw, TagsOver(map[], reused), e).attributes[0].attributes == Some([Attr(a.name, Text(rw.url(a.value.text)))])
  {
    var id := video.id.value;
    assert Lower("video") == "video" && Lower("div") == "div";
    var v, d := [(id, "video")], [(id, "div")];
    assert Elements(video, false) == v && Elements(div, false) == d;
    var shown := [RecordedEvent.FullSnapshot(video, rest)];
    var added := Mutation([], [Addition(div, add)], rest);
    var reused := shown + [added];
    assert shown[1..] == [] && reused[1..] == [added] && [added][1..] == [] && [Addition(div, add)][1..] == [];
    assert AddedElements([Addition(div, add)]) == d by { assert d + [] == d; }
    assert RecordedElements([], shown) == RecordedElements(v, []) == v;
    assert RecordedElements([], reused) == RecordedElements(v, [added]) == RecordedElements(v + d, []) == v + d;
    assert LastTag(v, id) == Some("video") && LastTag(v + d, id) == Some("div");
    RecordedMediaKeepsBlob(rw, shown, e, 0, 0);
    RecordedMediaKeepsBlob(rw, reused, e, 0, 0);
    var a := e.attributes[0].attributes.value[0];
    assert RewriteEvent(rw, TagsOver(map[], shown), e).attributes[0].attributes.value == [a];
    assert RewriteEvent(rw, TagsOver(map[], reused), e).attributes[0].attributes.value == [Attr(a.name, Text(rw.url(a.value.text)))];
  }

  // ---- With the scanners ----

  /** No candidate that the text records resolves to a URL the proxy takes. */
  function Unresolved(env: CssModel.Env, isSpace: char -> bool): TextTest {
    TextTest(s => CssModel.NoneResolves(env, CssModel.CssCandidates(env, s, 0)),
             s => CssModel.NoneResolves(env, CssModel.SrcsetCandidates(s, 0)),
             s => CssModel.Resolve(env, CssModel.Trimmed(isSpace, s)).None?)
  }

  lemma UnresolvedSurvives(env: CssModel.Env, isSpace: char -> bool, s: string)
    ensures var test, kept := Unresolved(env, isSpace), Survives(Scanning(env, isSpace));
      (test.css(s) ==> kept.css(s)) && (test.srcset(s) ==> kept.srcset(s)) && (test.url(s) ==> kept.url(s))
  {
    CssModel.UnresolvedIsKept(env, s);
    assert s[0..] == s;
  }

  lemma {:induction false} WeakerTest(strong: TextTest, weak: TextTest, n: Node, insideStyle: bool)
    requires forall s :: strong.css(s) ==> weak.css(s)
    requires forall s :: strong.srcset(s) ==> weak.srcset(s)
    requires forall s :: strong.url(s) ==> weak.url(s)
    requires TreeMeets(strong, n, insideStyle)
    ensures TreeMeets(weak, n, insideStyle)
    decreases n
  {
    if !IsStyleText(n, insideStyle) {
      forall i | 0 <= i < |n.children|
        ensures TreeMeets(weak, n.children[i], IsStyleElement(n))
      {
        WeakerTest(strong, weak, n.children[i], IsStyleElement(n));
      }
    }
  }

  /** With the scanners as rewriters, a tree none of whose own candidates resolves comes out as it went in. */
  lemma UnresolvedTreeIsKept(env: CssModel.Env, isSpace: char -> bool, n: Node, insideStyle: bool)
    requires TreeMeets(Unresolved(env, isSpace), n, insideStyle)
    ensures RewriteNode(Scanning(env, isSpace), n, insideStyle) == n
  {
    var rw := Scanning(env, isSpace);
    forall s {
      UnresolvedSurvives(env, isSpace, s);
    }
    WeakerTest(Unresolved(env, isSpace), Survives(rw), n, insideStyle);
    TreeKeptIff(rw, n, insideStyle);
  }

  /**
   * After a full snapshot the tag map is exactly the ids of its elements, each with its lower-case tag;
   * of two elements with one id the later counts.
   */
  lemma SnapshotTagsExact(tags: map<int, string>, node: Node, rest: string, id: int)
    ensures var out := TagsAfter(tags, RecordedEvent.FullSnapshot(node, rest)); var elements := Elements(node, false);
      && (id in out <==> exists i :: 0 <= i < |elements| && elements[i].0 == id)
      && (forall k :: 0 <= k < |elements| && elements[k].0 == id && LastOfId(elements, k) ==> out[id] == elements[k].1)
  {
    TagNodeSetsElements(map[], node, false);
    var elements := Elements(node, false);
    SetAllHolds(map[], elements, id);
    forall k | 0 <= k < |elements| && elements[k].0 == id && LastOfId(elements, k)
      ensures SetAll(map[], elements)[id] == elements[k].1
    {
      SetAllLast(map[], elements, k);
    }
  }
}
