/** The model listing of app/api/models/route.ts. `parseModelReferences` scans the reference
    document line by line, keeping a current category: a recognised `****Category****` header makes
    its category current and gives it a fresh, empty list, and every `- namespace/model` bullet is
    appended to the current category's list. A second scan, from the first occurrence of a LoRA
    marker to the end of the document, collects the quoted names of `- "name": [url]` entries into
    an extra `LoRAs` list. `GET` flattens the category lists into model records. */
module ModelList {
  import opened Options
  import opened JsText

  /** The categories a header may name, in the order the route lists them. */
  const Categories: seq<string> := [
    "Image generation",
    "Reference / trained media models",
    "Video models",
    "Avatar models",
    "3D assets generation",
    "Audio Generation",
    "Subject Training Models",
    "Utility models"
  ]

  /** No category is empty, and the LoRA key is not a category. */
  lemma CategoryFacts()
    ensures "" !in Categories && LoraCategory !in Categories
  {
  }

  /** The marker the LoRA scan looks for, exactly as the route spells it: "LoRas" followed by an em
      dash that was encoded as UTF-8 and decoded again as Windows-1252 (the three code points
      U+00E2, U+20AC, U+201D). A document with a correctly encoded em dash does not contain it. */
  const LoraMarker: string := "LoRas\U{00E2}\U{20AC}\U{201D}"

  /** The key under which the LoRA names are listed. */
  const LoraCategory: string := "LoRAs"

  /** The `models` record: its keys in insertion order, and the list under each key. */
  datatype ModelMap = ModelMap(keys: seq<string>, lists: map<string, seq<string>>)

  /** Keys are distinct and are exactly the keys that have a list. */
  ghost predicate Valid(m: ModelMap) {
    && (forall i, j :: 0 <= i < j < |m.keys| ==> m.keys[i] != m.keys[j])
    && (forall k :: k in m.lists <==> k in m.keys)
  }

  /** `models[k] = v`: a new key goes last, an existing key keeps its place. */
  function Assign(m: ModelMap, k: string, v: seq<string>): ModelMap {
    ModelMap(if k in m.lists then m.keys else m.keys + [k], m.lists[k := v])
  }

  /** A second assignment to the same key overrides the first. */
  lemma AssignTwice(m: ModelMap, k: string, a: seq<string>, b: seq<string>)
    ensures Assign(Assign(m, k, a), k, b) == Assign(m, k, b)
  {
    assert m.lists[k := a][k := b] == m.lists[k := b];
  }

  /** The text of a trimmed line that starts and ends with `****`: the line with every `*`
      removed, trimmed. */
  function HeaderText(trimmed: string): Option<string> {
    if StartsWith(trimmed, "****") && EndsWith(trimmed, "****")
    then Some(Trim(RemoveChars(trimmed, {'*'})))
    else None
  }

  /** The category a line makes current: a header whose text is one of the listed categories. */
  function RecognisedHeader(line: string): Option<string> {
    match HeaderText(Trim(line))
    case Some(c) => if c in Categories || c == "Reference / trained media models" then Some(c) else None
    case None => None
  }

  /** The model a line names: a trimmed line that starts with `- ` and contains `/`, without the
      bullet, trimmed. */
  function ModelName(line: string): Option<string> {
    var t := Trim(line);
    if StartsWith(t, "- ") && Contains(t, "/") then Some(Trim(t[2..])) else None
  }

  /** What the header/model loop sees in one line: the category it makes current, if any, and
      the model it names, if any. */
  datatype LineKind = LineKind(header: Option<string>, model: Option<string>)

  function Classify(line: string): LineKind {
    LineKind(RecognisedHeader(line), ModelName(line))
  }

  /** The classification of every line, in order. */
  function Kinds(lines: seq<string>): (r: seq<LineKind>)
    ensures |r| == |lines|
    ensures forall i :: 0 <= i < |lines| ==> r[i] == Classify(lines[i])
  {
    seq(|lines|, i requires 0 <= i < |lines| => Classify(lines[i]))
  }

  /** The state the header/model loop carries: the record so far and the current category. */
  datatype ScanState = ScanState(models: ModelMap, current: string)

  /** The header test of one iteration: a recognised header becomes current, with an empty list. */
  function HeaderStep(st: ScanState, header: Option<string>): ScanState {
    match header
    case Some(c) => ScanState(Assign(st.models, c, []), c)
    case None => st
  }

  /** The model test of one iteration: a model is appended to the current category's list. */
  function ModelStep(st: ScanState, model: Option<string>): ScanState {
    match model
    case Some(name) =>
      if st.current != "" && st.current in st.models.lists
      then ScanState(Assign(st.models, st.current, st.models.lists[st.current] + [name]), st.current)
      else st
    case None => st
  }

  /** One iteration of the header/model loop: the header test, then the model test. */
  function Step(st: ScanState, k: LineKind): ScanState {
    ModelStep(HeaderStep(st, k.header), k.model)
  }

  /** The header/model loop over classified lines. */
  function Scan(ks: seq<LineKind>): ScanState {
    if ks == [] then ScanState(ModelMap([], map[]), "")
    else Step(Scan(ks[..|ks| - 1]), ks[|ks| - 1])
  }

  /** The header/model loop over `lines`. */
  function ScanLines(lines: seq<string>): ScanState {
    Scan(Kinds(lines))
  }

  /** The regular expression `- "([^"]+)": \[([^\]]+)\]` tried at index `p` of `s`, giving its
      first group. `[^"]+` can only end just before the next `"`, and `[^\]]+` needs at least one
      character before the next `]`, so no backtracking choice is left. */
  function BracketEntryAt(s: string, p: nat): Option<string> {
    if !SubAt(s, "- \"", p) then None
    else
      var k := IndexOf(s, "\"", p + 3);
      if k <= p + 3 || !SubAt(s, "\": [", k) then None
      else
        var e := IndexOf(s, "]", k + 4);
        if e <= k + 4 then None else Some(s[p + 3..k])
  }

  /** `s.match(...)` for that expression: the match at the leftmost index where it matches. */
  function FindBracketEntry(s: string, p: nat): Option<string>
    decreases |s| - p
  {
    if p >= |s| then None
    else
      match BracketEntryAt(s, p)
      case Some(name) => Some(name)
      case None => FindBracketEntry(s, p + 1)
  }

  /** The LoRA name a line contributes: the line, trimmed, starts with `- "`, the raw line contains
      `":`, and the expression matches the raw line. */
  function BracketEntryName(line: string): Option<string> {
    if StartsWith(Trim(line), "- \"") && Contains(line, "\":") then FindBracketEntry(line, 0) else None
  }

  /** The LoRA name each line contributes, in order. */
  function EntryNames(lines: seq<string>): (r: seq<Option<string>>)
    ensures |r| == |lines|
    ensures forall i :: 0 <= i < |lines| ==> r[i] == BracketEntryName(lines[i])
  {
    seq(|lines|, i requires 0 <= i < |lines| => BracketEntryName(lines[i]))
  }

  /** The names present in `found`, in order. */
  function Present(found: seq<Option<string>>): seq<string> {
    if found == [] then []
    else
      Present(found[..|found| - 1]) +
      match found[|found| - 1]
      case Some(name) => [name]
      case None => []
  }

  /** The LoRA names of `lines`, in order. */
  function LoraNames(lines: seq<string>): seq<string> {
    Present(EntryNames(lines))
  }

  /** What `parseModelReferences` returns for the document `content`. */
  function Parse(content: string): ModelMap {
    var scanned := ScanLines(Split(content, '\n')).models;
    var at := IndexOf(content, LoraMarker, 0);
    if at < 0 then scanned
    else Assign(scanned, LoraCategory, LoraNames(Split(content[at..], '\n')))
  }

  /** The header/model loop of `parseModelReferences`. */
  method ScanCategories(lines: seq<string>) returns (models: ModelMap, current: string)
    ensures ScanState(models, current) == ScanLines(lines)
  {
    models := ModelMap([], map[]);
    current := "";
    ghost var kinds := Kinds(lines);
    var i := 0;
    while i < |lines|
      invariant 0 <= i <= |lines|
      invariant ScanState(models, current) == Scan(kinds[..i])
    {
      ghost var before := ScanState(models, current);
      var line := lines[i];
      var category := RecognisedHeader(line);
      if category.Some? {
        current := category.value;
        models := Assign(models, current, []);
      }
      ghost var mid := ScanState(models, current);
      assert mid == HeaderStep(before, category);
      var modelName := ModelName(line);
      if modelName.Some? && current != "" && current in models.lists {
        models := Assign(models, current, models.lists[current] + [modelName.value]);
      }
      assert ScanState(models, current) == ModelStep(mid, modelName);
      assert kinds[i] == LineKind(category, modelName);
      ScanSnoc(kinds, i);
      i := i + 1;
    }
    assert kinds[..i] == kinds;
  }

  /** One more line is one more step. */
  lemma ScanSnoc(ks: seq<LineKind>, i: nat)
    requires i < |ks|
    ensures Scan(ks[..i + 1]) == Step(Scan(ks[..i]), ks[i])
  {
    assert ks[..i + 1][..i] == ks[..i];
  }

  /** The LoRA loop of `parseModelReferences`: the `LoRAs` list is set to empty, then each entry
      line of the section pushes its name. */
  method AddLoraNames(scanned: ModelMap, lorasLines: seq<string>) returns (models: ModelMap)
    ensures models == Assign(scanned, LoraCategory, LoraNames(lorasLines))
  {
    models := Assign(scanned, LoraCategory, []);
    ghost var found := EntryNames(lorasLines);
    var j := 0;
    assert found[..0] == [];
    while j < |lorasLines|
      invariant 0 <= j <= |lorasLines|
      invariant models == Assign(scanned, LoraCategory, Present(found[..j]))
    {
      assert found[..j + 1][..j] == found[..j];
      ghost var names := Present(found[..j]);
      ghost var next := Present(found[..j + 1]);
      assert models.lists[LoraCategory] == names;
      var line := lorasLines[j];
      var loraMatch := BracketEntryName(line);
      if loraMatch.Some? {
        assert next == names + [loraMatch.value];
        AssignTwice(scanned, LoraCategory, names, next);
        models := Assign(models, LoraCategory, models.lists[LoraCategory] + [loraMatch.value]);
      } else {
        assert next == names;
      }
      j := j + 1;
    }
    assert found[..j] == found;
  }

  /** `parseModelReferences`, with the document's text passed in instead of read from disk. */
  method ParseModelReferences(content: string) returns (models: ModelMap)
    ensures models == Parse(content)
  {
    var lines := Split(content, '\n');
    var current;
    models, current := ScanCategories(lines);
    var lorasIndex := IndexOf(content, LoraMarker, 0);
    if lorasIndex != -1 {
      var lorasSection := content[lorasIndex..];
      models := AddLoraNames(models, Split(lorasSection, '\n'));
    }
  }

  // ---------------------------------------------------------------------------------------------
  // An independent description of the header/model loop, and the proof that the loop meets it.

  /** A header is a listed category and names no model. */
  predicate KindOk(k: LineKind) {
    k.header.Some? ==> k.header.value in Categories && k.model.None?
  }

  predicate AllOk(ks: seq<LineKind>) {
    forall i :: 0 <= i < |ks| ==> KindOk(ks[i])
  }

  lemma HeaderIsNotModel(line: string)
    ensures KindOk(Classify(line))
  {
    var t := Trim(line);
    if RecognisedHeader(line).Some? {
      assert HeaderText(t).Some?;
      assert t[..4] == "****";
      assert t[..2][0] == t[0] == t[..4][0];
      assert t[..2] != "- ";
    }
  }

  lemma KindsOk(lines: seq<string>)
    ensures AllOk(Kinds(lines))
  {
    forall i | 0 <= i < |lines| ensures KindOk(Kinds(lines)[i]) {
      HeaderIsNotModel(lines[i]);
    }
  }

  /** The recognised header categories, in document order. */
  function HeaderCats(ks: seq<LineKind>): seq<string> {
    if ks == [] then []
    else
      HeaderCats(ks[..|ks| - 1]) +
      match ks[|ks| - 1].header
      case Some(c) => [c]
      case None => []
  }

  /** `s` without repetitions, each element where it first occurs. */
  function FirstOccurrences(s: seq<string>): (r: seq<string>)
    ensures forall x :: x in r <==> x in s
    ensures forall i, j :: 0 <= i < j < |r| ==> r[i] != r[j]
  {
    if s == [] then []
    else
      var r := FirstOccurrences(s[..|s| - 1]);
      assert forall x :: x in s <==> x in s[..|s| - 1] || x == s[|s| - 1];
      if s[|s| - 1] in r then r else r + [s[|s| - 1]]
  }

  /** The category of the last recognised header, or "" when there is none. */
  function LastHeader(ks: seq<LineKind>): string {
    if ks == [] then ""
    else
      match ks[|ks| - 1].header
      case Some(c) => c
      case None => LastHeader(ks[..|ks| - 1])
  }

  /** The lines after the last recognised header of category `c`. */
  function AfterLastHeader(ks: seq<LineKind>, c: string): seq<LineKind> {
    if ks == [] then []
    else if ks[|ks| - 1].header == Some(c) then []
    else AfterLastHeader(ks[..|ks| - 1], c) + [ks[|ks| - 1]]
  }

  /** No line is a recognised header. */
  predicate HeaderFree(ks: seq<LineKind>) {
    ks == [] || (ks[0].header.None? && HeaderFree(ks[1..]))
  }

  /** The model name of a line, as a list of zero or one names. */
  function NameOf(k: LineKind): seq<string> {
    match k.model case Some(n) => [n] case None => []
  }

  /** The model names read from the top until the first recognised header. */
  function NamesUntilHeader(ks: seq<LineKind>): seq<string> {
    if ks == [] || ks[0].header.Some? then []
    else NameOf(ks[0]) + NamesUntilHeader(ks[1..])
  }

  lemma {:induction false} HeaderFreeSnoc(s: seq<LineKind>, x: LineKind)
    ensures HeaderFree(s + [x]) <==> HeaderFree(s) && x.header.None?
  {
    if s == [] {
      assert [] + [x] == [x];
      assert [x][1..] == [];
    } else {
      assert (s + [x])[0] == s[0];
      assert (s + [x])[1..] == s[1..] + [x];
      HeaderFreeSnoc(s[1..], x);
    }
  }

  lemma {:induction false} NamesUntilHeaderAppend(s: seq<LineKind>, x: LineKind)
    ensures NamesUntilHeader(s + [x]) ==
      if HeaderFree(s) && x.header.None? then NamesUntilHeader(s) + NameOf(x)
      else NamesUntilHeader(s)
  {
    if s == [] {
      assert [] + [x] == [x];
      assert [x][1..] == [];
    } else {
      assert (s + [x])[0] == s[0];
      assert (s + [x])[1..] == s[1..] + [x];
      if s[0].header.None? {
        NamesUntilHeaderAppend(s[1..], x);
      }
    }
  }

  lemma {:induction false} LastHeaderFacts(ks: seq<LineKind>)
    requires AllOk(ks)
    ensures LastHeader(ks) == "" <==> HeaderCats(ks) == []
    ensures LastHeader(ks) != "" ==> LastHeader(ks) in HeaderCats(ks)
    ensures forall c :: c in HeaderCats(ks) ==> c in Categories
  {
    if ks != [] {
      CategoryFacts();
      LastHeaderFacts(ks[..|ks| - 1]);
      assert KindOk(ks[|ks| - 1]);
    }
  }

  /** The lines after the overall last header hold no recognised header. */
  lemma {:induction false} AfterLastIsFree(ks: seq<LineKind>, c: string)
    requires c != "" && LastHeader(ks) == c
    ensures HeaderFree(AfterLastHeader(ks, c))
  {
    if ks != [] {
      var init, x := ks[..|ks| - 1], ks[|ks| - 1];
      if x.header.None? {
        AfterLastIsFree(init, c);
        HeaderFreeSnoc(AfterLastHeader(init, c), x);
      }
    }
  }

  /** The lines after the last header of any other seen category contain a recognised header. */
  lemma {:induction false} AfterOtherHasHeader(ks: seq<LineKind>, c: string)
    requires c in HeaderCats(ks) && LastHeader(ks) != c
    ensures !HeaderFree(AfterLastHeader(ks, c))
  {
    var init, x := ks[..|ks| - 1], ks[|ks| - 1];
    HeaderFreeSnoc(AfterLastHeader(init, c), x);
    if x.header.None? {
      AfterOtherHasHeader(init, c);
    }
  }

  lemma AllOkInit(ks: seq<LineKind>)
    requires ks != [] && AllOk(ks)
    ensures AllOk(ks[..|ks| - 1]) && KindOk(ks[|ks| - 1])
  {
    var init := ks[..|ks| - 1];
    forall i | 0 <= i < |init| ensures KindOk(init[i]) {
      assert init[i] == ks[i];
    }
  }

  /** The current category is that of the last recognised header. */
  lemma {:induction false} ScanCurrent(ks: seq<LineKind>)
    ensures Scan(ks).current == LastHeader(ks)
  {
    if ks != [] {
      ScanCurrent(ks[..|ks| - 1]);
    }
  }

  /** A category has a list exactly when one of its headers occurred. */
  lemma {:induction false} ScanDomain(ks: seq<LineKind>, c: string)
    ensures c in Scan(ks).models.lists <==> c in HeaderCats(ks)
  {
    if ks != [] {
      var init, x := ks[..|ks| - 1], ks[|ks| - 1];
      ScanDomain(init, c);
      ScanDomain(init, Scan(init).current);
      assert x.header.None? ==> HeaderCats(ks) == HeaderCats(init);
    }
  }

  /** The keys are the recognised categories in order of first appearance. */
  lemma {:induction false} ScanKeys(ks: seq<LineKind>)
    ensures Scan(ks).models.keys == FirstOccurrences(HeaderCats(ks))
  {
    if ks != [] {
      var init, x := ks[..|ks| - 1], ks[|ks| - 1];
      ScanKeys(init);
      var st0 := Scan(init);
      var mid := HeaderStep(st0, x.header);
      match x.header
      case Some(h) =>
        ScanDomain(init, h);
        assert HeaderCats(ks) == HeaderCats(init) + [h];
        assert HeaderCats(ks)[..|HeaderCats(ks)| - 1] == HeaderCats(init);
        assert mid.current in mid.models.lists;
      case None =>
        assert HeaderCats(ks) == HeaderCats(init);
    }
  }

  /** Each category's list holds the model names of the lines after its last header, up to the
      next recognised header. */
  lemma {:induction false} ScanList(ks: seq<LineKind>, c: string)
    requires AllOk(ks) && c in Scan(ks).models.lists
    ensures Scan(ks).models.lists[c] == NamesUntilHeader(AfterLastHeader(ks, c))
  {
    var init, x := ks[..|ks| - 1], ks[|ks| - 1];
    AllOkInit(ks);
    var st0 := Scan(init);
    ScanCurrent(init);
    ScanDomain(init, c);
    ScanDomain(ks, c);
    LastHeaderFacts(init);
    CategoryFacts();
    match x.header
    case Some(h) =>
      if c != h {
        ScanList(init, c);
        NamesUntilHeaderAppend(AfterLastHeader(init, c), x);
        HeaderFreeSnoc(AfterLastHeader(init, c), x);
      }
    case None =>
      assert HeaderCats(ks) == HeaderCats(init);
      ScanList(init, c);
      var a := AfterLastHeader(init, c);
      assert AfterLastHeader(ks, c) == a + [x];
      NamesUntilHeaderAppend(a, x);
      if c == st0.current {
        AfterLastIsFree(init, c);
      } else {
        AfterOtherHasHeader(init, c);
      }
  }

  /** The header/model loop meets the independent description: the record's keys are the
      recognised categories in order of first appearance; the current category is that of the
      last recognised header; and each category's list holds the model names of the lines after
      its LAST header, up to the next recognised header. So a repeated header discards what was
      collected under its earlier occurrence, an unrecognised header changes nothing, and bullets
      before the first recognised header are dropped. */
  lemma ScanCharacterisation(ks: seq<LineKind>)
    requires AllOk(ks)
    ensures var st := Scan(ks);
      && Valid(st.models)
      && st.models.keys == FirstOccurrences(HeaderCats(ks))
      && st.current == LastHeader(ks)
      && (forall c :: c in st.models.lists <==> c in HeaderCats(ks))
      && (forall c :: c in st.models.lists ==>
            st.models.lists[c] == NamesUntilHeader(AfterLastHeader(ks, c)))
  {
    ScanKeys(ks);
    ScanCurrent(ks);
    forall c ensures c in Scan(ks).models.lists <==> c in HeaderCats(ks) {
      ScanDomain(ks, c);
    }
    forall c | c in Scan(ks).models.lists
      ensures Scan(ks).models.lists[c] == NamesUntilHeader(AfterLastHeader(ks, c))
    {
      ScanList(ks, c);
    }
  }

  // ---------------------------------------------------------------------------------------------
  // Properties of whole documents and of single lines.

  /** The LoRA key is never a scanned category. */
  lemma LoraKeyNotScanned(ks: seq<LineKind>)
    requires AllOk(ks)
    ensures LoraCategory !in Scan(ks).models.lists
    ensures LoraCategory !in Scan(ks).models.keys
  {
    CategoryFacts();
    LastHeaderFacts(ks);
    ScanDomain(ks, LoraCategory);
    ScanKeys(ks);
  }

  /** A listed category appears exactly when one of its headers does, holding the names after
      its last header; the LoRA scan never touches it. */
  lemma ParseCategory(content: string, c: string)
    requires c in Categories
    ensures var m := Parse(content); var ks := Kinds(Split(content, '\n'));
      && (c in m.lists <==> c in HeaderCats(ks))
      && (c in m.lists ==> m.lists[c] == NamesUntilHeader(AfterLastHeader(ks, c)))
  {
    var ks := Kinds(Split(content, '\n'));
    KindsOk(Split(content, '\n'));
    CategoryFacts();
    ScanDomain(ks, c);
    if c in Scan(ks).models.lists {
      ScanList(ks, c);
    }
  }

  /** The `LoRAs` key exists exactly when the marker occurs in the text; it then comes after every
      category and holds the entry names of the lines from the marker to the end of the document
      (a `---` line does not stop it). Without the marker the keys are the categories alone. */
  lemma ParseLoras(content: string)
    ensures var m := Parse(content); var ks := Kinds(Split(content, '\n'));
      && (LoraCategory in m.lists <==> Contains(content, LoraMarker))
      && (!Contains(content, LoraMarker) ==> m.keys == FirstOccurrences(HeaderCats(ks)))
      && (Contains(content, LoraMarker) ==>
            && m.keys == FirstOccurrences(HeaderCats(ks)) + [LoraCategory]
            && m.lists[LoraCategory] ==
                 LoraNames(Split(content[IndexOf(content, LoraMarker, 0)..], '\n')))
  {
    var ks := Kinds(Split(content, '\n'));
    KindsOk(Split(content, '\n'));
    LoraKeyNotScanned(ks);
    ScanKeys(ks);
  }

  /** Assigning to any key keeps a record valid. */
  lemma AssignValid(m: ModelMap, k: string, v: seq<string>)
    requires Valid(m)
    ensures Valid(Assign(m, k, v))
  {
    if k !in m.lists {
      var r := Assign(m, k, v);
      assert forall i :: 0 <= i < |m.keys| ==> r.keys[i] == m.keys[i] != k;
    }
  }

  /** The record's keys are distinct, are exactly the keys with a list, and are categories or
      `LoRAs`. */
  lemma ParseValid(content: string)
    ensures Valid(Parse(content))
    ensures forall c :: c in Parse(content).lists ==> c in Categories || c == LoraCategory
  {
    var ks := Kinds(Split(content, '\n'));
    KindsOk(Split(content, '\n'));
    ScanCharacterisation(ks);
    LastHeaderFacts(ks);
    var scanned := Scan(ks).models;
    var at := IndexOf(content, LoraMarker, 0);
    if at >= 0 {
      AssignValid(scanned, LoraCategory, LoraNames(Split(content[at..], '\n')));
    }
  }

  /** The record `parseModelReferences` returns has a list under each of its keys. */
  lemma ParseCovers(content: string)
    ensures Covers(Parse(content).keys, Parse(content).lists)
  {
    ParseValid(content);
  }

  /** Deleting the stars of `****` + text + `****` leaves the text, when it has no star. */
  lemma HeaderStarsRemoved(c: string)
    requires '*' !in c
    ensures RemoveChars("****" + c + "****", {'*'}) == c
  {
    RemoveCharsAppend("****" + c, "****", {'*'});
    RemoveCharsAppend("****", c, {'*'});
    RemoveCharsNone(c, {'*'});
    assert RemoveChars("****", {'*'}) == [];
  }

  /** `****` + text + `****` is its own trim and starts and ends with `****`. */
  lemma HeaderLineShape(c: string)
    ensures var line := "****" + c + "****";
      Trim(line) == line && StartsWith(line, "****") && EndsWith(line, "****")
  {
    var line := "****" + c + "****";
    assert line[..4] == "****";
    assert line[|line| - 4..] == "****";
    assert line[0] == '*' && line[|line| - 1] == '*';
    TrimOfTrimmed(line);
  }

  /** A header written as `****` + text + `****`, for a text without `*` and without white space
      at its ends, carries that text, and makes it current exactly when it is a listed category. */
  lemma HeaderLineRead(c: string)
    requires '*' !in c
    requires c == [] || (!IsSpace(c[0]) && !IsSpace(c[|c| - 1]))
    ensures HeaderText("****" + c + "****") == Some(c)
    ensures RecognisedHeader("****" + c + "****") == if c in Categories then Some(c) else None
  {
    HeaderLineShape(c);
    HeaderStarsRemoved(c);
    TrimOfTrimmed(c);
  }

  /** A bullet `- ` + name, for a name that contains `/` and has no white space at its ends, is read
      back as that name. */
  lemma ModelLineRead(name: string)
    requires '/' in name && !IsSpace(name[0]) && !IsSpace(name[|name| - 1])
    ensures ModelName("- " + name) == Some(name)
  {
    var line := "- " + name;
    var i :| 0 <= i < |name| && name[i] == '/';
    assert line[i + 2] == '/';
    assert line[i + 2..i + 3] == "/";
    ContainsAt(line, "/", i + 2);
    assert line[2..] == name;
    assert line[..2] == "- ";
    TrimOfTrimmed(name);
    assert line[0] == '-' && line[|line| - 1] == name[|name| - 1];
    TrimOfTrimmed(line);
  }

  /** The expression matches `- "name": [url]` at its start, with `name` as its first group. */
  lemma BracketLineMatch(name: string, url: string)
    requires name != [] && '"' !in name
    requires url != [] && ']' !in url
    ensures var line := "- \"" + name + "\": [" + url + "]";
      FindBracketEntry(line, 0) == Some(name) && Contains(line, "\":")
  {
    var line := "- \"" + name + "\": [" + url + "]";
    var k := 3 + |name|;
    var e := k + 4 + |url|;
    assert |line| == e + 1;
    assert line[..3] == "- \"";
    assert line[3..k] == name;
    assert line[k..k + 4] == "\": [";
    assert line[k + 4..e] == url;
    assert line[e] == ']';
    assert line[k..k + 2] == "\":";
    ContainsAt(line, "\":", k);
    assert forall j :: 3 <= j < k ==> line[j] == line[3..k][j - 3];
    IndexOfCharAt(line, '"', 3, k);
    assert forall j :: k + 4 <= j < e ==> line[j] == line[k + 4..e][j - k - 4];
    IndexOfCharAt(line, ']', k + 4, e);
    assert BracketEntryAt(line, 0) == Some(name);
  }

  /** `- "name": [url]` is its own trim. */
  lemma BracketLineTrimmed(name: string, url: string)
    ensures var line := "- \"" + name + "\": [" + url + "]";
      StartsWith(Trim(line), "- \"")
  {
    var line := "- \"" + name + "\": [" + url + "]";
    assert line[0] == '-' && line[|line| - 1] == ']';
    TrimOfTrimmed(line);
    assert line[..3] == "- \"";
  }

  /** An entry `- "name": [url]`, for a non-empty name without `"` and a non-empty url without `]`,
      contributes its name to the LoRA list. */
  lemma BracketEntryRead(name: string, url: string)
    requires name != [] && '"' !in name
    requires url != [] && ']' !in url
    ensures BracketEntryName("- \"" + name + "\": [" + url + "]") == Some(name)
  {
    BracketLineMatch(name, url);
    BracketLineTrimmed(name, url);
  }

  // ---------------------------------------------------------------------------------------------
  // GET: flattening the record into model records.

  /** The record `GET` emits for one model. */
  datatype ModelEntry = ModelEntry(name: string, category: string, endpointId: Option<string>, isLora: bool)

  /** The namespaces whose models are addressed by their own name. */
  const EndpointNamespaces: seq<string> := ["fal-ai/", "bria/", "tripo3d/", "sonauto/"]

  /** The endpoint identifier of a model: its name when it starts with one of the namespaces,
      `null` otherwise. */
  function EndpointId(name: string): (r: Option<string>)
    ensures r.Some? <==> exists p :: p in EndpointNamespaces && StartsWith(name, p)
    ensures r.Some? ==> r.value == name
  {
    if StartsWith(name, "fal-ai/") || StartsWith(name, "bria/") ||
       StartsWith(name, "tripo3d/") || StartsWith(name, "sonauto/")
    then Some(name)
    else None
  }

  function Entry(name: string, category: string): ModelEntry {
    ModelEntry(name, category, EndpointId(name), category == LoraCategory)
  }

  /** The records of the models of one category, in list order. */
  function EntriesOf(category: string, names: seq<string>): (r: seq<ModelEntry>)
    ensures |r| == |names|
    ensures forall i :: 0 <= i < |names| ==> r[i] == Entry(names[i], category)
  {
    if names == [] then []
    else EntriesOf(category, names[..|names| - 1]) + [Entry(names[|names| - 1], category)]
  }

  predicate Covers(keys: seq<string>, lists: map<string, seq<string>>) {
    forall k :: k in keys ==> k in lists
  }

  /** The sum of the lengths of the lists under `keys`. */
  function TotalCount(keys: seq<string>, lists: map<string, seq<string>>): nat
    requires Covers(keys, lists)
  {
    if keys == [] then 0
    else TotalCount(keys[..|keys| - 1], lists) + |lists[keys[|keys| - 1]]|
  }

  /** The records of every model, category by category in key order. */
  function Flatten(keys: seq<string>, lists: map<string, seq<string>>): (r: seq<ModelEntry>)
    requires Covers(keys, lists)
    ensures |r| == TotalCount(keys, lists)
    ensures forall i :: 0 <= i < |r| ==> r[i].category in keys && r[i].name in lists[r[i].category]
    ensures forall i :: 0 <= i < |r| ==> (r[i].isLora <==> r[i].category == LoraCategory)
  {
    if keys == [] then []
    else
      var init, c := keys[..|keys| - 1], keys[|keys| - 1];
      var front := Flatten(init, lists);
      var back := EntriesOf(c, lists[c]);
      assert forall i :: 0 <= i < |back| ==> back[i].category == c && back[i].name in lists[c];
      front + back
  }

  /** The model at index `j` of the list under `keys[k]` is record number
      (models under keys before k) + j: category order first, list order within a category. */
  lemma {:induction false} FlattenAt(keys: seq<string>, lists: map<string, seq<string>>, k: nat, j: nat)
    requires Covers(keys, lists)
    requires k < |keys| && j < |lists[keys[k]]|
    ensures TotalCount(keys[..k], lists) + j < |Flatten(keys, lists)|
    ensures Flatten(keys, lists)[TotalCount(keys[..k], lists) + j] == Entry(lists[keys[k]][j], keys[k])
  {
    var init := keys[..|keys| - 1];
    if k == |keys| - 1 {
      assert keys[..k] == init;
    } else {
      assert init[..k] == keys[..k];
      assert init[k] == keys[k];
      FlattenAt(init, lists, k, j);
    }
  }

  /** The response of `GET /api/models`. */
  datatype ModelsResponse =
    | ModelsListed(models: seq<ModelEntry>, categories: seq<string>, total: nat)  // success: true
    | ModelsFailed                                                                // success: false, status 500

  function HttpStatus(r: ModelsResponse): nat {
    if r.ModelsListed? then 200 else 500
  }

  /** One more key adds the records of its list. */
  lemma FlattenSnoc(keys: seq<string>, lists: map<string, seq<string>>, k: nat)
    requires Covers(keys, lists) && k < |keys|
    ensures Covers(keys[..k], lists) && Covers(keys[..k + 1], lists)
    ensures Flatten(keys[..k + 1], lists) == Flatten(keys[..k], lists) + EntriesOf(keys[k], lists[keys[k]])
  {
    assert keys[..k + 1][..k] == keys[..k];
  }

  /** One more name adds its record. */
  lemma EntriesSnoc(category: string, names: seq<string>, j: nat)
    requires j < |names|
    ensures EntriesOf(category, names[..j + 1]) == EntriesOf(category, names[..j]) + [Entry(names[j], category)]
  {
    assert names[..j + 1][..j] == names[..j];
  }

  /** The inner loop of `GET`: pushes the record of every model of one category. */
  method PushEntries(allModels: seq<ModelEntry>, category: string, modelList: seq<string>)
    returns (pushed: seq<ModelEntry>)
    ensures pushed == allModels + EntriesOf(category, modelList)
  {
    pushed := allModels;
    var j := 0;
    while j < |modelList|
      invariant 0 <= j <= |modelList|
      invariant pushed == allModels + EntriesOf(category, modelList[..j])
    {
      var model := modelList[j];
      var endpointId :=
        if StartsWith(model, "fal-ai/") || StartsWith(model, "bria/") ||
           StartsWith(model, "tripo3d/") || StartsWith(model, "sonauto/")
        then Some(model)
        else None;
      ghost var entry := ModelEntry(model, category, endpointId, category == LoraCategory);
      assert entry == Entry(model, category);
      EntriesSnoc(category, modelList, j);
      assert pushed + [entry] == allModels + (EntriesOf(category, modelList[..j]) + [entry]);
      pushed := pushed + [ModelEntry(model, category, endpointId, category == LoraCategory)];
      j := j + 1;
    }
    assert modelList[..j] == modelList;
  }

  /** The nested loop of `GET` that turns the record into model records. */
  method FlattenModels(models: ModelMap) returns (allModels: seq<ModelEntry>)
    requires Covers(models.keys, models.lists)
    ensures allModels == Flatten(models.keys, models.lists)
  {
    allModels := [];
    var k := 0;
    while k < |models.keys|
      invariant 0 <= k <= |models.keys|
      invariant Covers(models.keys[..k], models.lists)
      invariant allModels == Flatten(models.keys[..k], models.lists)
    {
      var category := models.keys[k];
      var modelList := models.lists[category];
      allModels := PushEntries(allModels, category, modelList);
      FlattenSnoc(models.keys, models.lists, k);
      k := k + 1;
    }
    assert models.keys[..k] == models.keys;
  }

  /** `GET`, with the document's text passed in: `None` when reading it fails. */
  method ListModels(content: Option<string>) returns (resp: ModelsResponse)
    ensures content.None? <==> resp.ModelsFailed?
    ensures resp.ModelsFailed? ==> HttpStatus(resp) == 500
    ensures content.Some? ==>
      var m := Parse(content.value);
      Covers(m.keys, m.lists) &&
      resp == ModelsListed(Flatten(m.keys, m.lists), m.keys, TotalCount(m.keys, m.lists))
  {
    if content.None? {
      return ModelsFailed;
    }
    var models := ParseModelReferences(content.value);
    ParseCovers(content.value);
    var allModels := FlattenModels(models);
    resp := ModelsListed(allModels, models.keys, |allModels|);
  }
}
