/** The Figma summary extractor: a bounded projection of a Figma file document
    (name, version, pages with their first frames, and the first style keys). */
module FigmaSummary {
  import opened JsonValue

  const MAX_FRAMES := 20
  const MAX_STYLE_KEYS := 10
  const UNKNOWN := Str("Unknown")

  /** One second-level node: only its name, type and background colour survive. */
  datatype Frame = Frame(name: Json, kind: Json, background: Json)
  /** One first-level node of `document`. */
  datatype Page = Page(name: Json, kind: Json, frames: seq<Frame>)
  /** The `styles` entry of the summary: `colors` and `text_styles`. */
  datatype Styles = Styles(colors: seq<string>, textStyles: seq<string>)
  datatype Summary = Summary(name: Json, version: Json, pages: seq<Page>, styles: Styles)

  /** `node.get("children", [])`, read as a list. */
  function Children(node: Json): (children: seq<Json>)
    ensures children == [] || (node.Obj? && ("children", Arr(children)) in node.fields)
    ensures (!node.Obj? || forall i :: 0 <= i < |node.fields| ==> node.fields[i].0 != "children") ==> children == []
    ensures HasChildList(node) && node.Obj? ==> StoredOr(node.fields, "children", Arr([]), Arr(children))
  {
    match GetOr(node, "children", Arr([]))
    case Arr(items) => items
    case _ => []
  }

  /** `data.get("document", {})`. */
  function Document(data: Json): (doc: Json)
    ensures data.Obj? ==> StoredOr(data.fields, "document", Obj([]), doc)
    ensures data.Obj? && (exists i :: 0 <= i < |data.fields| && data.fields[i].0 == "document") ==> ("document", doc) in data.fields
    ensures !data.Obj? ==> doc == Obj([])
  {
    GetOr(data, "document", Obj([]))
  }

  // ---------------------------------------------------------------------------
  // The shape under which the extractor runs without raising

  predicate IsDict(j: Json) {
    j.Obj? && UniqueKeys(j.fields)
  }

  /** `node.get("children", [])` is a list. */
  predicate HasChildList(node: Json) {
    GetOr(node, "children", Arr([])).Arr?
  }

  /** A page is a dict with a list of children, and the frames that are read are dicts. */
  predicate PageShaped(page: Json) {
    && IsDict(page)
    && HasChildList(page)
    && forall j :: 0 <= j < |Children(page)| && j < MAX_FRAMES ==> IsDict(Children(page)[j])
  }

  predicate DocumentShaped(doc: Json) {
    && IsDict(doc)
    && HasChildList(doc)
    && forall i :: 0 <= i < |Children(doc)| ==> PageShaped(Children(doc)[i])
  }

  /** `styles` or `componentSets`: absent, falsy, or a dict whose keys are listed. */
  predicate MappingShaped(m: Option<Json>) {
    m.None? || !Truthy(m.value) || IsDict(m.value)
  }

  predicate WellShaped(data: Json) {
    && IsDict(data)
    && DocumentShaped(Document(data))
    && MappingShaped(Get(data, "styles"))
    && MappingShaped(Get(data, "componentSets"))
  }

  // ---------------------------------------------------------------------------
  // The extractor

  /** A frame keeps the child's own `name`, `type` and `backgroundColor`, or None for an absent key. */
  function ExtractFrame(child: Json): (f: Frame)
    ensures child.Obj? ==> && StoredOr(child.fields, "name", Null, f.name)
                           && StoredOr(child.fields, "type", Null, f.kind)
                           && StoredOr(child.fields, "backgroundColor", Null, f.background)
    ensures !child.Obj? ==> f == Frame(Null, Null, Null)
  {
    Frame(GetOr(child, "name", Null), GetOr(child, "type", Null), GetOr(child, "backgroundColor", Null))
  }

  /** One frame entry per child, in order. */
  function ExtractFrames(children: seq<Json>): (frames: seq<Frame>)
    ensures |frames| == |children|
    ensures forall j :: 0 <= j < |children| ==> frames[j] == ExtractFrame(children[j])
  {
    if children == [] then []
    else [ExtractFrame(children[0])] + ExtractFrames(children[1..])
  }

  /** A page keeps its own `name` and `type` and one frame for each of its first 20 children. */
  function ExtractPage(page: Json): (p: Page)
    ensures page.Obj? ==> StoredOr(page.fields, "name", Null, p.name) && StoredOr(page.fields, "type", Null, p.kind)
    ensures |p.frames| == if |Children(page)| <= MAX_FRAMES then |Children(page)| else MAX_FRAMES
    ensures forall j :: 0 <= j < |p.frames| ==> p.frames[j] == ExtractFrame(Children(page)[j])
  {
    Page(GetOr(page, "name", Null), GetOr(page, "type", Null),
         ExtractFrames(Take(Children(page), MAX_FRAMES)))
  }

  /** One page entry per first-level child, in order. */
  function ExtractPages(pages: seq<Json>): (summaries: seq<Page>)
    ensures |summaries| == |pages|
    ensures forall i :: 0 <= i < |pages| ==> summaries[i] == ExtractPage(pages[i])
  {
    if pages == [] then []
    else [ExtractPage(pages[0])] + ExtractPages(pages[1..])
  }

  /** The first keys of a truthy mapping, none otherwise. */
  function StyleKeys(mapping: Option<Json>): (keys: seq<string>)
    ensures |keys| <= MAX_STYLE_KEYS
  {
    if mapping.Some? && Truthy(mapping.value) && mapping.value.Obj?
    then Take(Keys(mapping.value.fields), MAX_STYLE_KEYS)
    else []
  }

  /** `extract_figma_summary`: its output is bounded whatever the size of the input. */
  function ExtractSummary(data: Json): (s: Summary)
    requires WellShaped(data)
    ensures |s.pages| == |Children(Document(data))|
    ensures forall i :: 0 <= i < |s.pages| ==> |s.pages[i].frames| <= MAX_FRAMES
    ensures |s.styles.colors| <= MAX_STYLE_KEYS && |s.styles.textStyles| <= MAX_STYLE_KEYS
  {
    Summary(
      GetOr(data, "name", UNKNOWN),
      GetOr(data, "version", UNKNOWN),
      ExtractPages(Children(Document(data))),
      Styles(StyleKeys(Get(data, "styles")), StyleKeys(Get(data, "componentSets"))))
  }

  // ---------------------------------------------------------------------------
  // Properties of the extractor

  /** `name` and `version` are the document's own values, or "Unknown" when absent. */
  lemma NameAndVersionDefaults(data: Json)
    requires WellShaped(data)
    ensures StoredOr(data.fields, "name", UNKNOWN, ExtractSummary(data).name)
    ensures StoredOr(data.fields, "version", UNKNOWN, ExtractSummary(data).version)
    ensures forall i :: 0 <= i < |data.fields| && data.fields[i].0 == "name" ==>
              ExtractSummary(data).name == data.fields[i].1
    ensures forall i :: 0 <= i < |data.fields| && data.fields[i].0 == "version" ==>
              ExtractSummary(data).version == data.fields[i].1
  {
    forall i | 0 <= i < |data.fields| && data.fields[i].0 == "name"
      ensures ExtractSummary(data).name == data.fields[i].1
    {
      LookupAt(data.fields, i);
    }
    forall i | 0 <= i < |data.fields| && data.fields[i].0 == "version"
      ensures ExtractSummary(data).version == data.fields[i].1
    {
      LookupAt(data.fields, i);
    }
  }

  /** Exactly one page entry per child of `document`, in order; none when `document`
      or its `children` is absent. */
  lemma PagesFollowDocument(data: Json)
    requires WellShaped(data)
    ensures |ExtractSummary(data).pages| == |Children(Document(data))|
    ensures forall i :: 0 <= i < |Children(Document(data))| ==>
              ExtractSummary(data).pages[i] == ExtractPage(Children(Document(data))[i])
    ensures Get(data, "document").None? ==> ExtractSummary(data).pages == []
    ensures Get(Document(data), "children").None? ==> ExtractSummary(data).pages == []
  {
  }

  /** A page's frames are its first min(20, n) children, in order, each reduced to
      name, type and `backgroundColor`. */
  lemma FramesArePrefix(page: Json)
    requires PageShaped(page)
    ensures |ExtractPage(page).frames| == if |Children(page)| <= MAX_FRAMES then |Children(page)| else MAX_FRAMES
    ensures forall j :: 0 <= j < |ExtractPage(page).frames| ==>
              var child := Children(page)[j];
              var f := ExtractPage(page).frames[j];
              && StoredOr(child.fields, "name", Null, f.name)
              && StoredOr(child.fields, "type", Null, f.kind)
              && StoredOr(child.fields, "backgroundColor", Null, f.background)
  {
    var frames := Take(Children(page), MAX_FRAMES);
    forall j | 0 <= j < |ExtractPage(page).frames|
      ensures var child := Children(page)[j];
              var f := ExtractPage(page).frames[j];
              && StoredOr(child.fields, "name", Null, f.name)
              && StoredOr(child.fields, "type", Null, f.kind)
              && StoredOr(child.fields, "backgroundColor", Null, f.background)
    {
      assert frames[j] == Children(page)[j];
      assert IsDict(Children(page)[j]);
    }
  }

  /** `colors` and `text_styles` are the first (at most ten) keys of `styles` and of
      `componentSets`, in order; empty when the mapping is absent or falsy. */
  lemma StyleKeysArePrefix(data: Json)
    requires WellShaped(data)
    ensures var s := ExtractSummary(data).styles;
            && (Get(data, "styles").None? ==> s.colors == [])
            && (Get(data, "componentSets").None? ==> s.textStyles == [])
    ensures forall i :: 0 <= i < |data.fields| && data.fields[i].0 == "styles" ==>
              var v := data.fields[i].1;
              ExtractSummary(data).styles.colors == if v.Obj? then Take(Keys(v.fields), MAX_STYLE_KEYS) else []
    ensures forall i :: 0 <= i < |data.fields| && data.fields[i].0 == "componentSets" ==>
              var v := data.fields[i].1;
              ExtractSummary(data).styles.textStyles == if v.Obj? then Take(Keys(v.fields), MAX_STYLE_KEYS) else []
  {
    forall i | 0 <= i < |data.fields| && data.fields[i].0 == "styles"
      ensures var v := data.fields[i].1;
              ExtractSummary(data).styles.colors == if v.Obj? then Take(Keys(v.fields), MAX_STYLE_KEYS) else []
    {
      LookupAt(data.fields, i);
      assert Get(data, "styles") == Some(data.fields[i].1);
    }
    forall i | 0 <= i < |data.fields| && data.fields[i].0 == "componentSets"
      ensures var v := data.fields[i].1;
              ExtractSummary(data).styles.textStyles == if v.Obj? then Take(Keys(v.fields), MAX_STYLE_KEYS) else []
    {
      LookupAt(data.fields, i);
      assert Get(data, "componentSets") == Some(data.fields[i].1);
    }
  }

  // ---------------------------------------------------------------------------
  // Nothing below depth two is read

  function PruneFrame(child: Json): Json {
    Obj([("name", GetOr(child, "name", Null)),
         ("type", GetOr(child, "type", Null)),
         ("backgroundColor", GetOr(child, "backgroundColor", Null))])
  }

  function PrunePage(page: Json): Json {
    var kept := Take(Children(page), MAX_FRAMES);
    Obj([("name", GetOr(page, "name", Null)),
         ("type", GetOr(page, "type", Null)),
         ("children", Arr(seq(|kept|, j requires 0 <= j < |kept| => PruneFrame(kept[j]))))])
  }

  function PruneDocument(doc: Json): Json {
    var pages := Children(doc);
    Obj([("children", Arr(seq(|pages|, i requires 0 <= i < |pages| => PrunePage(pages[i]))))])
  }

  /** A mapping reduced to its listed keys, every value dropped. */
  function KeysOnly(mapping: Option<Json>): Json {
    var keys := StyleKeys(mapping);
    Obj(seq(|keys|, i requires 0 <= i < |keys| => (keys[i], Null)))
  }

  /** The part of a document the extractor looks at: the top-level name and version,
      the pages with their name, type and first twenty frames, each frame with its
      name, type and background colour, and the first ten keys of each mapping. */
  function Prune(data: Json): Json {
    Obj([("name", GetOr(data, "name", UNKNOWN)),
         ("version", GetOr(data, "version", UNKNOWN)),
         ("document", PruneDocument(Document(data))),
         ("styles", KeysOnly(Get(data, "styles"))),
         ("componentSets", KeysOnly(Get(data, "componentSets")))])
  }

  lemma PruneFrameSummary(child: Json)
    ensures IsDict(PruneFrame(child))
    ensures ExtractFrame(PruneFrame(child)) == ExtractFrame(child)
  {
    var p := PruneFrame(child);
    assert IsDict(p);
    LookupAt(p.fields, 0);
    LookupAt(p.fields, 1);
    LookupAt(p.fields, 2);
  }

  /** The three entries of a pruned page are read back as stored. */
  lemma PrunePageEntries(page: Json)
    ensures var kept := Take(Children(page), MAX_FRAMES);
            && IsDict(PrunePage(page))
            && GetOr(PrunePage(page), "name", Null) == GetOr(page, "name", Null)
            && GetOr(PrunePage(page), "type", Null) == GetOr(page, "type", Null)
            && Children(PrunePage(page)) == seq(|kept|, j requires 0 <= j < |kept| => PruneFrame(kept[j]))
  {
    var p := PrunePage(page);
    assert IsDict(p);
    LookupAt(p.fields, 0);
    LookupAt(p.fields, 1);
    LookupAt(p.fields, 2);
  }

  /** Pruning each frame does not change the frame entries extracted from them. */
  lemma PruneFramesSummary(kept: seq<Json>)
    ensures var pruned := seq(|kept|, j requires 0 <= j < |kept| => PruneFrame(kept[j]));
            && (forall j :: 0 <= j < |pruned| ==> IsDict(pruned[j]))
            && ExtractFrames(pruned) == ExtractFrames(kept)
  {
    var pruned := seq(|kept|, j requires 0 <= j < |kept| => PruneFrame(kept[j]));
    forall j | 0 <= j < |pruned| ensures IsDict(pruned[j]) && ExtractFrame(pruned[j]) == ExtractFrame(kept[j]) {
      PruneFrameSummary(kept[j]);
    }
  }

  lemma PrunePageSummary(page: Json)
    ensures PageShaped(PrunePage(page))
    ensures ExtractPage(PrunePage(page)) == ExtractPage(page)
  {
    var kept := Take(Children(page), MAX_FRAMES);
    var pruned := seq(|kept|, j requires 0 <= j < |kept| => PruneFrame(kept[j]));
    PrunePageEntries(page);
    PruneFramesSummary(kept);
    assert Take(pruned, MAX_FRAMES) == pruned;
  }

  lemma KeysOnlyKeys(m: Option<Json>)
    requires MappingShaped(m)
    ensures IsDict(KeysOnly(m))
    ensures StyleKeys(Some(KeysOnly(m))) == StyleKeys(m)
  {
    var keys := StyleKeys(m);
    var ko := KeysOnly(m);
    assert Keys(ko.fields) == keys;
    if keys != [] {
      assert m.Some? && IsDict(m.value);
      var all := Keys(m.value.fields);
      assert keys <= all;
      forall i, j | 0 <= i < j < |keys| ensures keys[i] != keys[j] {
        assert keys[i] == m.value.fields[i].0 && keys[j] == m.value.fields[j].0;
      }
    }
  }

  /** The five entries of a pruned document are read back as stored. */
  lemma PruneEntries(data: Json)
    ensures IsDict(Prune(data))
    ensures GetOr(Prune(data), "name", UNKNOWN) == GetOr(data, "name", UNKNOWN)
    ensures GetOr(Prune(data), "version", UNKNOWN) == GetOr(data, "version", UNKNOWN)
    ensures Document(Prune(data)) == PruneDocument(Document(data))
    ensures Get(Prune(data), "styles") == Some(KeysOnly(Get(data, "styles")))
    ensures Get(Prune(data), "componentSets") == Some(KeysOnly(Get(data, "componentSets")))
  {
    var p := Prune(data);
    assert IsDict(p);
    LookupAt(p.fields, 0);
    LookupAt(p.fields, 1);
    LookupAt(p.fields, 2);
    LookupAt(p.fields, 3);
    LookupAt(p.fields, 4);
  }

  /** Pruning each page does not change the page entries extracted from them. */
  lemma PrunePagesSummary(pages: seq<Json>)
    ensures var pruned := seq(|pages|, i requires 0 <= i < |pages| => PrunePage(pages[i]));
            && (forall i :: 0 <= i < |pruned| ==> PageShaped(pruned[i]))
            && ExtractPages(pruned) == ExtractPages(pages)
  {
    var pruned := seq(|pages|, i requires 0 <= i < |pages| => PrunePage(pages[i]));
    forall i | 0 <= i < |pruned| ensures PageShaped(pruned[i]) && ExtractPage(pruned[i]) == ExtractPage(pages[i]) {
      PrunePageSummary(pages[i]);
    }
  }

  /** The pruned `document` is well shaped and yields the same page entries. */
  lemma PruneDocumentSummary(doc: Json)
    ensures DocumentShaped(PruneDocument(doc))
    ensures ExtractPages(Children(PruneDocument(doc))) == ExtractPages(Children(doc))
  {
    var d := PruneDocument(doc);
    assert IsDict(d);
    LookupAt(d.fields, 0);
    PrunePagesSummary(Children(doc));
  }

  /** The summary of a document is the summary of its pruned form: the extractor never
      looks below the frames, past the twentieth frame, or at any style value. */
  lemma SummaryReadsDepthTwo(data: Json)
    requires WellShaped(data)
    ensures WellShaped(Prune(data))
    ensures ExtractSummary(Prune(data)) == ExtractSummary(data)
  {
    PruneEntries(data);
    PruneDocumentSummary(Document(data));
    KeysOnlyKeys(Get(data, "styles"));
    KeysOnlyKeys(Get(data, "componentSets"));
  }

  /** A page named "Page" holding `n` copies of `frame`. */
  function RepeatedPage(frame: Json, n: nat): Json {
    Obj([("name", Str("Page")), ("type", Str("CANVAS")), ("children", Arr(seq(n, _ => frame)))])
  }

  lemma RepeatedPageFrames(frame: Json, n: nat)
    requires IsDict(frame)
    ensures PageShaped(RepeatedPage(frame, n))
    ensures |ExtractPage(RepeatedPage(frame, n)).frames| == if n <= MAX_FRAMES then n else MAX_FRAMES
  {
    var page := RepeatedPage(frame, n);
    assert IsDict(page);
    LookupAt(page.fields, 2);
    assert Children(page) == seq(n, _ => frame);
  }

  /** A document holding nothing but its pages. */
  function PagesOnly(pages: seq<Json>): Json {
    Obj([("document", Obj([("children", Arr(pages))]))])
  }

  lemma PagesOnlyShape(pages: seq<Json>)
    requires forall i :: 0 <= i < |pages| ==> PageShaped(pages[i])
    ensures WellShaped(PagesOnly(pages))
    ensures Children(Document(PagesOnly(pages))) == pages
  {
    var data := PagesOnly(pages);
    var doc := Obj([("children", Arr(pages))]);
    LookupAt(data.fields, 0);
    LookupAt(doc.fields, 0);
    assert Document(data) == doc;
  }

  lemma AbsentFromSingleton(k: string, v: Json, key: string)
    requires k != key
    ensures Lookup([(k, v)], key) == None
  {
  }

  /** A dict with no name, version or style mappings summarises to its pages alone. */
  lemma DefaultsOnly(data: Json)
    requires WellShaped(data)
    requires Get(data, "name").None? && Get(data, "version").None?
    requires Get(data, "styles").None? && Get(data, "componentSets").None?
    ensures ExtractSummary(data) == Summary(UNKNOWN, UNKNOWN, ExtractPages(Children(Document(data))), Styles([], []))
  {
  }

  /** Such a document has the default name and version and no style keys. */
  lemma PagesOnlySummary(pages: seq<Json>)
    requires forall i :: 0 <= i < |pages| ==> PageShaped(pages[i])
    ensures WellShaped(PagesOnly(pages))
    ensures ExtractSummary(PagesOnly(pages)) == Summary(UNKNOWN, UNKNOWN, ExtractPages(pages), Styles([], []))
  {
    PagesOnlyShape(pages);
    var data := PagesOnly(pages);
    var doc := Obj([("children", Arr(pages))]);
    assert data.fields == [("document", doc)];
    AbsentFromSingleton("document", doc, "name");
    AbsentFromSingleton("document", doc, "version");
    AbsentFromSingleton("document", doc, "styles");
    AbsentFromSingleton("document", doc, "componentSets");
    DefaultsOnly(data);
  }

  /** A document of the same page twice summarises to that page's summary twice. */
  lemma SamePageTwice(page: Json)
    requires PageShaped(page)
    ensures WellShaped(PagesOnly([page, page]))
    ensures ExtractSummary(PagesOnly([page, page])) ==
            Summary(UNKNOWN, UNKNOWN, [ExtractPage(page), ExtractPage(page)], Styles([], []))
  {
    PagesOnlySummary([page, page]);
    assert [page, page][1..] == [page] && [page][1..] == [];
  }

  /** Two pages of twenty-five frames each: every page keeps exactly twenty frames,
      and the absent name and mappings take their defaults. */
  lemma TwoPagesOfTwentyFiveFrames(frame: Json)
    requires IsDict(frame)
    ensures var data := PagesOnly([RepeatedPage(frame, 25), RepeatedPage(frame, 25)]);
            && WellShaped(data)
            && |ExtractSummary(data).pages| == 2
            && |ExtractSummary(data).pages[0].frames| == 20
            && |ExtractSummary(data).pages[1].frames| == 20
            && ExtractSummary(data).name == UNKNOWN
            && ExtractSummary(data).styles == Styles([], [])
  {
    RepeatedPageFrames(frame, 25);
    SamePageTwice(RepeatedPage(frame, 25));
  }
}
