/** The LoRA options of app/api/lora-options/route.ts. `parseLoraReferences` walks the reference
    document line by line. A line that, trimmed, is exactly `LoRAs—` or `LoRas—` opens the LoRA
    section; the first trimmed `---` after that closes it. Inside the section every entry line
    `- "name": [url]` (the brackets are optional) becomes an option, and the one or two lines after
    the entry's first occurrence may add a style flag, a trigger phrase and a subject name. */
module LoraOptions {
  import opened Options
  import opened JsText

  /** The two spellings of the line that opens the section (with a real em dash, U+2014). */
  predicate IsMarker(trimmed: string) {
    trimmed == "LoRAs\U{2014}" || trimmed == "LoRas\U{2014}"
  }

  /** The line that closes the section. */
  const SectionEnd: string := "---"

  // ---------------------------------------------------------------------------------------------
  // The regular expressions, as scans over the string.

  /** The first index at or after `i` that holds `c`, or the end of `s`. */
  function CharEnd(s: string, c: char, i: nat): (r: nat)
    requires i <= |s|
    ensures i <= r <= |s|
    ensures forall j :: i <= j < r ==> s[j] != c
    ensures r == |s| || s[r] == c
    decreases |s| - i
  {
    if i == |s| || s[i] == c then i else CharEnd(s, c, i + 1)
  }

  /** The first index at or after `i` that is not white space (`\s*` run to its longest). */
  function SpaceEnd(s: string, i: nat): (r: nat)
    requires i <= |s|
    ensures i <= r <= |s|
    ensures forall j :: i <= j < r ==> IsSpace(s[j])
    ensures r == |s| || !IsSpace(s[r])
    decreases |s| - i
  {
    if i == |s| || !IsSpace(s[i]) then i else SpaceEnd(s, i + 1)
  }

  /** The expression `- "([^"]+)":\s*\[?([^\]]+)\]?` tried at index `p` of `s`: its two groups.
      `[^"]+` can only stop just before the next `"`, which must start `":`. `\s*` first takes all
      the white space up to `w`. If `s[w]` is `[` followed by a character other than `]`, group 2
      runs from after the `[` up to the next `]` (or the end). Otherwise group 2 starts at `w` if
      `s[w]` exists and is not `]`; failing that, `\s*` gives back its last white-space character
      and group 2 starts there; with no white space to give back the match fails. */
  function EntryAt(s: string, p: nat): Option<(string, string)> {
    if !SubAt(s, "- \"", p) then None
    else
      var k := CharEnd(s, '"', p + 3);
      if k == p + 3 || !SubAt(s, "\":", k) then None
      else
        var name := s[p + 3..k];
        var w := SpaceEnd(s, k + 2);
        if w + 1 < |s| && s[w] == '[' && s[w + 1] != ']' then Some((name, s[w + 1..CharEnd(s, ']', w + 1)]))
        else if w < |s| && s[w] != ']' then Some((name, s[w..CharEnd(s, ']', w)]))
        else if w > k + 2 then Some((name, s[w - 1..CharEnd(s, ']', w - 1)]))
        else None
  }

  /** `s.match(...)` for that expression: the match at the leftmost index where it matches. */
  function FindEntry(s: string, p: nat): Option<(string, string)>
    decreases |s| - p
  {
    if p >= |s| then None
    else
      match EntryAt(s, p)
      case Some(groups) => Some(groups)
      case None => FindEntry(s, p + 1)
  }

  /** The expression `<key>\s*=\s*"([^"]+)"` tried at index `p` of `s`: its group. Giving back white
      space never helps, because the character after it would be white space, not `=` or `"`. */
  function AttributeAt(s: string, key: string, p: nat): Option<string> {
    if !SubAt(s, key, p) then None
    else
      var w1 := SpaceEnd(s, p + |key|);
      if w1 == |s| || s[w1] != '=' then None
      else
        var w2 := SpaceEnd(s, w1 + 1);
        if w2 == |s| || s[w2] != '"' then None
        else
          var q := CharEnd(s, '"', w2 + 1);
          if q == w2 + 1 || q == |s| then None else Some(s[w2 + 1..q])
  }

  /** `s.match(...)` for that expression: the leftmost match. */
  function FindAttribute(s: string, key: string, p: nat): Option<string>
    decreases |s| - p
  {
    if p >= |s| then None
    else
      match AttributeAt(s, key, p)
      case Some(v) => Some(v)
      case None => FindAttribute(s, key, p + 1)
  }

  /** An attribute match needs the key to occur in the string. */
  lemma {:induction false} FindAttributeHasKey(s: string, key: string, p: nat)
    requires FindAttribute(s, key, p).Some?
    ensures Contains(s, key)
    decreases |s| - p
  {
    if AttributeAt(s, key, p).Some? {
      ContainsAt(s, key, p);
    } else {
      FindAttributeHasKey(s, key, p + 1);
    }
  }

  // ---------------------------------------------------------------------------------------------
  // One option.

  /** A LoRA option as the route returns it. */
  datatype LoraOption = LoraOption(
    name: string,
    url: string,
    isStyle: bool,
    phraseReference: string,
    subjectReference: string)

  /** The key of the trigger-phrase attribute, misspelt as the route spells it. */
  const PhraseKey: string := "phrade reference"

  const SubjectKey: string := "Subject reference name"

  /** The url of an entry: its second group without `[` and `]`, trimmed. */
  function CleanUrl(group: string): string {
    Trim(RemoveChars(group, {'[', ']'}))
  }

  /** The line at index `i`, trimmed, or `""` past the end. */
  function TrimmedAt(lines: seq<string>, i: nat): string {
    if i < |lines| then Trim(lines[i]) else ""
  }

  /** `lines.indexOf(line)`: the index of the first line equal to `line`. */
  function FirstIndex(lines: seq<string>, line: string): (r: nat)
    requires line in lines
    ensures r < |lines| && lines[r] == line && line !in lines[..r]
  {
    if lines[0] == line then 0
    else
      assert line in lines[1..];
      var r := FirstIndex(lines[1..], line) + 1;
      assert lines[..r] == [lines[0]] + lines[1..][..r - 1];
      r
  }

  function IsStyle(next: string): bool {
    Contains(next, "Is style=\"true\"") || Contains(next, "Is style=")
  }

  function PhraseReference(next: string): string {
    if Contains(next, "phrade reference") || Contains(next, "phrase reference")
    then FindAttribute(next, PhraseKey, 0).GetOr("")
    else ""
  }

  function SubjectReference(next: string, nextNext: string): string {
    if Contains(next, "Subject reference") || Contains(nextNext, "Subject reference")
    then
      match FindAttribute(next, SubjectKey, 0)
      case Some(v) => v
      case None => FindAttribute(nextNext, SubjectKey, 0).GetOr("")
    else ""
  }

  /** The option an entry line of the section produces, if any: its trimmed text starts with `- "`
      and contains `":`, and the entry expression matches it; the attributes come from the two
      lines after the first line equal to it. */
  function EntryOption(lines: seq<string>, line: string): Option<LoraOption>
    requires line in lines
  {
    var t := Trim(line);
    if StartsWith(t, "- \"") && Contains(t, "\":") then
      match FindEntry(t, 0)
      case None => None
      case Some(groups) => Some(OptionAt(lines, FirstIndex(lines, line), groups))
    else None
  }

  /** The option of an entry whose match has `groups` and whose line first occurs at index `at`:
      the attributes come from the two lines after it. */
  function OptionAt(lines: seq<string>, at: nat, groups: (string, string)): LoraOption {
    var next := TrimmedAt(lines, at + 1);
    var nextNext := TrimmedAt(lines, at + 2);
    LoraOption(groups.0, CleanUrl(groups.1), IsStyle(next), PhraseReference(next),
               SubjectReference(next, nextNext))
  }

  // ---------------------------------------------------------------------------------------------
  // The section scan.

  /** What the loop sees in one line: whether it opens the section, whether it would close it, and
      the option it would produce inside the section. */
  datatype LineRole = LineRole(opens: bool, closes: bool, option: Option<LoraOption>)

  function Role(lines: seq<string>, i: nat): LineRole
    requires i < |lines|
  {
    var t := Trim(lines[i]);
    LineRole(IsMarker(t), t == SectionEnd, EntryOption(lines, lines[i]))
  }

  function Roles(lines: seq<string>): (r: seq<LineRole>)
    ensures |r| == |lines|
    ensures forall i :: 0 <= i < |lines| ==> r[i] == Role(lines, i)
  {
    seq(|lines|, i requires 0 <= i < |lines| => Role(lines, i))
  }

  /** The loop's variables: the section flag, whether the loop has stopped, the options so far. */
  datatype SectionState = SectionState(inSection: bool, stopped: bool, options: seq<LoraOption>)

  const Start: SectionState := SectionState(false, false, [])

  /** One iteration: an opening line sets the flag and continues; inside the section a closing
      line stops the loop and an entry pushes its option. */
  function RoleStep(st: SectionState, r: LineRole): SectionState {
    if st.stopped then st
    else if r.opens then st.(inSection := true)
    else if st.inSection && r.closes then st.(stopped := true)
    else if st.inSection && r.option.Some? then st.(options := st.options + [r.option.value])
    else st
  }

  /** The loop's variables after the first `n` lines. */
  function Collect(rs: seq<LineRole>, n: nat): SectionState
    requires n <= |rs|
  {
    if n == 0 then Start else RoleStep(Collect(rs, n - 1), rs[n - 1])
  }

  /** The options of a document split into lines. */
  function OptionsOf(lines: seq<string>): seq<LoraOption> {
    Collect(Roles(lines), |lines|).options
  }

  /** What `parseLoraReferences` returns: `None` stands for a document that cannot be read, which
      the route catches and answers with no options. */
  function LoraOptionsFor(content: Option<string>): seq<LoraOption> {
    match content
    case None => []
    case Some(text) => OptionsOf(Split(text, '\n'))
  }

  /** `parseLoraReferences`' loop over the lines of the document. */
  method ScanLoraLines(lines: seq<string>) returns (loraOptions: seq<LoraOption>)
    ensures loraOptions == OptionsOf(lines)
  {
    loraOptions := [];
    var inLoraSection := false;
    ghost var roles := Roles(lines);
    for i := 0 to |lines|
      invariant Collect(roles, i) == SectionState(inLoraSection, false, loraOptions)
    {
      var line := lines[i];
      var trimmedLine := Trim(line);
      ghost var role := roles[i];
      assert role == Role(lines, i);
      assert role.opens == IsMarker(trimmedLine) && role.closes == (trimmedLine == SectionEnd);

      if trimmedLine == "LoRAs\U{2014}" || trimmedLine == "LoRas\U{2014}" {
        inLoraSection := true;
        assert Collect(roles, i + 1) == SectionState(inLoraSection, false, loraOptions);
        continue;
      }

      if inLoraSection && trimmedLine == "---" {
        assert Collect(roles, i + 1) == SectionState(true, true, loraOptions);
        StoppedStays(roles, i + 1, |roles|);
        break;
      }

      if inLoraSection && StartsWith(trimmedLine, "- \"") && Contains(trimmedLine, "\":") {
        var option := ReadEntry(lines, line, trimmedLine);
        assert role.option == option;
        if option.Some? {
          loraOptions := loraOptions + [option.value];
        }
      } else {
        assert !inLoraSection || role.option.None?;
      }
      assert Collect(roles, i + 1) == SectionState(inLoraSection, false, loraOptions);
    }
  }

  /** The body of the loop for an entry line of the section: the expression match, the url
      clean-up, and the attributes read from the lines after the line's first occurrence. */
  method ReadEntry(lines: seq<string>, line: string, trimmedLine: string) returns (option: Option<LoraOption>)
    requires line in lines && trimmedLine == Trim(line)
    requires StartsWith(trimmedLine, "- \"") && Contains(trimmedLine, "\":")
    ensures option == EntryOption(lines, line)
  {
    var found := FindEntry(trimmedLine, 0);
    if found.None? {
      return None;
    }
    var name := found.value.0;
    var url := found.value.1;
    url := Trim(RemoveChars(url, {'[', ']'}));

    var currentIndex := FirstIndex(lines, line);
    var nextLine := if currentIndex + 1 < |lines| then Trim(lines[currentIndex + 1]) else "";
    var nextNextLine := if currentIndex + 2 < |lines| then Trim(lines[currentIndex + 2]) else "";
    assert nextLine == TrimmedAt(lines, currentIndex + 1);
    assert nextNextLine == TrimmedAt(lines, currentIndex + 2);

    var isStyle, phraseReference, subjectReference := ReadAttributes(nextLine, nextNextLine);
    option := Some(LoraOption(name, url, isStyle, phraseReference, subjectReference));
    assert option == Some(OptionAt(lines, currentIndex, found.value));
  }

  /** The attribute tests of the loop body, on the two lines after the entry. */
  method ReadAttributes(nextLine: string, nextNextLine: string)
    returns (isStyle: bool, phraseReference: string, subjectReference: string)
    ensures isStyle == IsStyle(nextLine)
    ensures phraseReference == PhraseReference(nextLine)
    ensures subjectReference == SubjectReference(nextLine, nextNextLine)
  {
    isStyle := false;
    phraseReference := "";
    subjectReference := "";

    if Contains(nextLine, "Is style=\"true\"") || Contains(nextLine, "Is style=") {
      isStyle := true;
    }

    if Contains(nextLine, "phrade reference") || Contains(nextLine, "phrase reference") {
      var phraseMatch := FindAttribute(nextLine, "phrade reference", 0);
      if phraseMatch.Some? {
        phraseReference := phraseMatch.value;
      }
    }

    if Contains(nextLine, "Subject reference") || Contains(nextNextLine, "Subject reference") {
      var subjectMatch := FindAttribute(nextLine, "Subject reference name", 0);
      if subjectMatch.None? {
        subjectMatch := FindAttribute(nextNextLine, "Subject reference name", 0);
      }
      if subjectMatch.Some? {
        subjectReference := subjectMatch.value;
      }
    }
  }

  /** `parseLoraReferences`, with the document's text passed in: `None` when reading it throws. */
  method ParseLoraReferences(content: Option<string>) returns (loraOptions: seq<LoraOption>)
    ensures loraOptions == LoraOptionsFor(content)
    ensures content.None? ==> loraOptions == []
  {
    if content.None? {
      return [];
    }
    var lines := Split(content.value, '\n');
    loraOptions := ScanLoraLines(lines);
  }

  /** Once the loop has stopped, the remaining lines change nothing. */
  lemma {:induction false} StoppedStays(rs: seq<LineRole>, j: nat, n: nat)
    requires j <= n <= |rs| && Collect(rs, j).stopped
    ensures Collect(rs, n) == Collect(rs, j)
    decreases n - j
  {
    if j < n {
      StoppedStays(rs, j, n - 1);
    }
  }

  // ---------------------------------------------------------------------------------------------
  // The section, described without the loop.

  /** The options present in `rs` from index `a` up to (not including) `b`, in order. */
  function Emitted(rs: seq<LineRole>, a: nat, b: nat): seq<LoraOption>
    requires a <= b <= |rs|
    decreases b - a
  {
    if b == a then []
    else
      Emitted(rs, a, b - 1) +
      match rs[b - 1].option
      case Some(o) => [o]
      case None => []
  }

  /** An opening line neither closes the section nor is an entry. */
  predicate RoleOk(r: LineRole) {
    r.opens ==> !r.closes && r.option.None?
  }

  lemma MarkerIsNoEntry(lines: seq<string>, i: nat)
    requires i < |lines|
    ensures RoleOk(Role(lines, i))
  {
    var t := Trim(lines[i]);
    if IsMarker(t) {
      assert t[..3] != "- \"" by { assert t[..3][0] == t[0] == 'L'; }
      assert t != SectionEnd by { assert t[0] == 'L'; }
    }
  }

  lemma {:induction false} BeforeOpening(rs: seq<LineRole>, j: nat)
    requires j <= |rs|
    requires forall i :: 0 <= i < j ==> !rs[i].opens
    ensures Collect(rs, j) == Start
  {
    if j > 0 {
      BeforeOpening(rs, j - 1);
    }
  }

  lemma {:induction false} InSection(rs: seq<LineRole>, m: nat, j: nat)
    requires m < j <= |rs|
    requires Collect(rs, m) == Start && rs[m].opens
    requires forall i :: m < i < j ==> !rs[i].closes && RoleOk(rs[i])
    ensures Collect(rs, j) == SectionState(true, false, Emitted(rs, m + 1, j))
  {
    if j > m + 1 {
      InSection(rs, m, j - 1);
    }
  }

  /** The section over line roles: nothing before the first opening line at `m` counts, entries
      count up to the first closing line `e` after it, and nothing from `e` on counts. */
  lemma CollectSection(rs: seq<LineRole>, m: nat, e: nat)
    requires m < e <= |rs|
    requires forall i :: 0 <= i < m ==> !rs[i].opens
    requires rs[m].opens
    requires forall i :: m < i < e ==> !rs[i].closes && RoleOk(rs[i])
    requires e == |rs| || (rs[e].closes && RoleOk(rs[e]))
    ensures Collect(rs, |rs|).options == Emitted(rs, m + 1, e)
  {
    BeforeOpening(rs, m);
    InSection(rs, m, e);
    if e < |rs| {
      assert Collect(rs, e + 1) == SectionState(true, true, Emitted(rs, m + 1, e));
      StoppedStays(rs, e + 1, |rs|);
    }
  }

  /** With no opening line the loop collects nothing. */
  lemma NoOpeningNoOptions(lines: seq<string>)
    requires forall i :: 0 <= i < |lines| ==> !IsMarker(Trim(lines[i]))
    ensures OptionsOf(lines) == []
  {
    BeforeOpening(Roles(lines), |lines|);
  }

  /** With the first opening line at `m` and the first `---` after it at `e` (or no `---`, and `e`
      the number of lines), the options are those of the entry lines strictly between, in order.
      Lines before `m`, a `---` among them included, and lines from `e` on play no part. */
  lemma SectionOptions(lines: seq<string>, m: nat, e: nat)
    requires m < e <= |lines|
    requires forall i :: 0 <= i < m ==> !IsMarker(Trim(lines[i]))
    requires IsMarker(Trim(lines[m]))
    requires forall i :: m < i < e ==> Trim(lines[i]) != SectionEnd
    requires e == |lines| || Trim(lines[e]) == SectionEnd
    ensures OptionsOf(lines) == Emitted(Roles(lines), m + 1, e)
  {
    var rs := Roles(lines);
    forall i | 0 <= i < |rs| ensures RoleOk(rs[i]) {
      MarkerIsNoEntry(lines, i);
    }
    CollectSection(rs, m, e);
  }

  // ---------------------------------------------------------------------------------------------
  // Entry and attribute lines read back.

  lemma {:induction false} CharEndAt(s: string, c: char, i: nat, j: nat)
    requires i <= j <= |s|
    requires forall k :: i <= k < j ==> s[k] != c
    requires j == |s| || s[j] == c
    ensures CharEnd(s, c, i) == j
    decreases j - i
  {
    if i < j {
      CharEndAt(s, c, i + 1, j);
    }
  }

  /** The quoted name of an entry line and the `":` after it. */
  lemma NameRead(t: string, name: string, rest: string)
    requires name != [] && '"' !in name
    requires t == "- \"" + name + "\":" + rest
    ensures SubAt(t, "- \"", 0) && StartsWith(t, "- \"")
    ensures CharEnd(t, '"', 3) == 3 + |name| && SubAt(t, "\":", 3 + |name|)
    ensures t[3..3 + |name|] == name && Contains(t, "\":")
  {
    var k := 3 + |name|;
    assert t[..3] == "- \"";
    assert t[3..k] == name;
    assert t[k..k + 2] == "\":";
    ContainsAt(t, "\":", k);
    assert forall j :: 3 <= j < k ==> t[j] == t[3..k][j - 3];
    CharEndAt(t, '"', 3, k);
  }

  /** An entry line that is its own trim and whose expression match has `name` and a second group
      that cleans to `url` gives an option with that name and url. */
  lemma EntryOptionRead(lines: seq<string>, t: string, name: string, group: string, url: string)
    requires t in lines && Trim(t) == t
    requires StartsWith(t, "- \"") && Contains(t, "\":")
    requires FindEntry(t, 0) == Some((name, group)) && CleanUrl(group) == url
    ensures var o := EntryOption(lines, t); o.Some? && o.value.name == name && o.value.url == url
  {
  }

  /** A url without brackets and without white space at its ends is its own cleaned form. */
  lemma CleanUrlOfPlain(url: string)
    requires '[' !in url && ']' !in url
    requires url == [] || (!IsSpace(url[0]) && !IsSpace(url[|url| - 1]))
    ensures CleanUrl(url) == url
  {
    RemoveCharsNone(url, {'[', ']'});
    TrimOfTrimmed(url);
  }

  /** A line that starts with `-` and ends in `]` or another character that is not white space is
      its own trim. */
  lemma DashLineTrimmed(t: string)
    requires t != [] && t[0] == '-' && (t[|t| - 1] == ']' || !IsSpace(t[|t| - 1]))
    ensures Trim(t) == t
  {
    assert !IsSpace('-') && !IsSpace(']');
    TrimOfTrimmed(t);
  }

  lemma LastOfAppend(a: string, b: string)
    requires b != []
    ensures (a + b)[|a + b| - 1] == b[|b| - 1]
  {
  }

  /** The entry expression matches at the start of `s` with a bracketed url. */
  lemma BracketMatch(s: string, k: nat, w: nat)
    requires SubAt(s, "- \"", 0) && CharEnd(s, '"', 3) == k && k > 3 && SubAt(s, "\":", k)
    requires SpaceEnd(s, k + 2) == w && w + 1 < |s| && s[w] == '[' && s[w + 1] != ']'
    ensures FindEntry(s, 0) == Some((s[3..k], s[w + 1..CharEnd(s, ']', w + 1)]))
  {
    assert EntryAt(s, 0) == Some((s[3..k], s[w + 1..CharEnd(s, ']', w + 1)]));
  }

  /** The entry expression matches at the start of `s` with a bare url. */
  lemma BareMatch(s: string, k: nat, w: nat)
    requires SubAt(s, "- \"", 0) && CharEnd(s, '"', 3) == k && k > 3 && SubAt(s, "\":", k)
    requires SpaceEnd(s, k + 2) == w && w < |s| && s[w] != '[' && s[w] != ']'
    ensures FindEntry(s, 0) == Some((s[3..k], s[w..CharEnd(s, ']', w)]))
  {
    assert EntryAt(s, 0) == Some((s[3..k], s[w..CharEnd(s, ']', w)]));
  }

  /** The line `- "name": [url]` is its own trim, passes the guard, and its match has `name` as
      first group and `url` as second. */
  lemma BracketLine(name: string, url: string)
    requires name != [] && '"' !in name
    requires url != [] && '[' !in url && ']' !in url
    ensures var t := "- \"" + name + "\": [" + url + "]";
      Trim(t) == t && StartsWith(t, "- \"") && Contains(t, "\":") && FindEntry(t, 0) == Some((name, url))
  {
    var t := "- \"" + name + "\": [" + url + "]";
    var k := 3 + |name|;
    var w := k + 3;
    var e := w + 1 + |url|;
    NameRead(t, name, " [" + url + "]");
    assert |t| == e + 1;
    assert t[w + 1..e] == url;
    assert t[k + 2] == ' ' && t[w] == '[' && t[e] == ']';
    assert SpaceEnd(t, k + 2) == w;
    assert t[w + 1] == url[0];
    assert forall j :: w + 1 <= j < e ==> t[j] == t[w + 1..e][j - w - 1];
    CharEndAt(t, ']', w + 1, e);
    BracketMatch(t, k, w);
    DashLineTrimmed(t);
  }

  /** With no `c` from `i` on, the search for `c` runs to the end. */
  lemma {:induction false} CharEndPast(s: string, c: char, i: nat)
    requires i <= |s| && c !in s[i..]
    ensures CharEnd(s, c, i) == |s|
    decreases |s| - i
  {
    if i < |s| {
      assert s[i] == s[i..][0] && s[i + 1..] == s[i..][1..];
      CharEndPast(s, c, i + 1);
    }
  }

  /** The entry expression matches at the start of `t` when one space separates `":` from a bare
      url that runs to the end of `t`. */
  lemma BareTail(t: string, k: nat, url: string)
    requires SubAt(t, "- \"", 0) && CharEnd(t, '"', 3) == k && k > 3 && SubAt(t, "\":", k)
    requires k + 3 <= |t| && t[k + 2] == ' ' && t[k + 3..] == url
    requires url != [] && '[' !in url && ']' !in url && !IsSpace(url[0])
    ensures FindEntry(t, 0) == Some((t[3..k], url))
  {
    var w := k + 3;
    CharEndPast(t, ']', w);
    assert t[w] == url[0];
    assert SpaceEnd(t, k + 3) == w;
    BareMatch(t, k, w);
    assert t[w..CharEnd(t, ']', w)] == t[w..] == url;
  }

  /** The line `- "name": url` passes the guard, and its match has `name` as first group and
      `url` as second. */
  lemma BareLine(name: string, url: string)
    requires name != [] && '"' !in name
    requires url != [] && '[' !in url && ']' !in url && !IsSpace(url[0]) && !IsSpace(url[|url| - 1])
    ensures var t := "- \"" + name + "\": " + url;
      StartsWith(t, "- \"") && Contains(t, "\":") && FindEntry(t, 0) == Some((name, url))
  {
    var t := "- \"" + name + "\": " + url;
    var k := 3 + |name|;
    NameRead(t, name, " " + url);
    assert t[k + 2] == ' ' && t[k + 3..] == url;
    BareTail(t, k, url);
  }

  /** The line `- "name": url` is its own trim when the url does not end in white space. */
  lemma BareLineTrimmed(name: string, url: string)
    requires url != [] && !IsSpace(url[|url| - 1])
    ensures Trim("- \"" + name + "\": " + url) == "- \"" + name + "\": " + url
  {
    LastOfAppend("- \"" + name + "\": ", url);
    DashLineTrimmed("- \"" + name + "\": " + url);
  }

  /** An entry `- "name": [url]`, for a non-empty name without `"` and a non-empty url without
      brackets or white space at its ends, gives an option with that name and url. */
  lemma BracketEntryRead(lines: seq<string>, name: string, url: string)
    requires name != [] && '"' !in name
    requires url != [] && '[' !in url && ']' !in url && !IsSpace(url[0]) && !IsSpace(url[|url| - 1])
    requires "- \"" + name + "\": [" + url + "]" in lines
    ensures var o := EntryOption(lines, "- \"" + name + "\": [" + url + "]");
      o.Some? && o.value.name == name && o.value.url == url
  {
    BracketLine(name, url);
    CleanUrlOfPlain(url);
    EntryOptionRead(lines, "- \"" + name + "\": [" + url + "]", name, url, url);
  }

  /** A bare entry `- "name": url` reads the same way. */
  lemma BareEntryRead(lines: seq<string>, name: string, url: string)
    requires name != [] && '"' !in name
    requires url != [] && '[' !in url && ']' !in url && !IsSpace(url[0]) && !IsSpace(url[|url| - 1])
    requires "- \"" + name + "\": " + url in lines
    ensures var o := EntryOption(lines, "- \"" + name + "\": " + url);
      o.Some? && o.value.name == name && o.value.url == url
  {
    BareLine(name, url);
    BareLineTrimmed(name, url);
    CleanUrlOfPlain(url);
    EntryOptionRead(lines, "- \"" + name + "\": " + url, name, url, url);
  }

  /** `key="value"` carries `value`, for a non-empty value without `"`. */
  lemma AttributeRead(key: string, value: string)
    requires value != [] && '"' !in value
    ensures FindAttribute(key + "=\"" + value + "\"", key, 0) == Some(value)
  {
    var s := key + "=\"" + value + "\"";
    var n := |key|;
    var q := n + 2 + |value|;
    assert |s| == q + 1;
    assert s[..n] == key;
    assert s[n] == '=' && s[n + 1] == '"' && s[q] == '"';
    assert s[n + 2..q] == value;
    assert SpaceEnd(s, n) == n;
    assert SpaceEnd(s, n + 1) == n + 1;
    assert forall j :: n + 2 <= j < q ==> s[j] == s[n + 2..q][j - n - 2];
    CharEndAt(s, '"', n + 2, q);
    assert AttributeAt(s, key, 0) == Some(value);
  }

  /** The style flag is set exactly when the next line contains `Is style=`, whatever follows. */
  lemma IsStyleIff(next: string)
    ensures IsStyle(next) <==> Contains(next, "Is style=")
  {
    if Contains(next, "Is style=\"true\"") {
      assert "Is style=\"true\"" == "Is style=" + "\"true\"";
      ContainsPrefix(next, "Is style=", "\"true\"");
    }
  }

  /** The trigger phrase is the value of the misspelt `phrade reference` attribute, or `""`: the
      correctly spelt `phrase reference` passes the guard but never yields a value. */
  lemma PhraseIsMisspeltMatch(next: string)
    ensures PhraseReference(next) == FindAttribute(next, PhraseKey, 0).GetOr("")
    ensures PhraseReference(next) != "" ==> Contains(next, PhraseKey)
  {
    if FindAttribute(next, PhraseKey, 0).Some? {
      FindAttributeHasKey(next, PhraseKey, 0);
    }
  }

  /** The subject name is the attribute's value on the next line, else on the line after, else
      `""`. */
  lemma SubjectIsFirstMatch(next: string, nextNext: string)
    ensures SubjectReference(next, nextNext) ==
      match FindAttribute(next, SubjectKey, 0)
      case Some(v) => v
      case None => FindAttribute(nextNext, SubjectKey, 0).GetOr("")
  {
    assert SubjectKey == "Subject reference" + " name";
    if FindAttribute(next, SubjectKey, 0).Some? {
      FindAttributeHasKey(next, SubjectKey, 0);
      ContainsPrefix(next, "Subject reference", " name");
    } else if FindAttribute(nextNext, SubjectKey, 0).Some? {
      FindAttributeHasKey(nextNext, SubjectKey, 0);
      ContainsPrefix(nextNext, "Subject reference", " name");
    }
  }

  /** A line that occurs only once takes its attributes from the lines right after it. */
  lemma FirstIndexOfUnique(lines: seq<string>, i: nat)
    requires i < |lines| && lines[i] !in lines[..i]
    ensures FirstIndex(lines, lines[i]) == i
  {
    var r := FirstIndex(lines, lines[i]);
  }
}
