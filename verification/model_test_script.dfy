/** The script test-models.js: a verbatim copy of the route's `parseModelReferences` followed by a
    report of the categories found, the number of models in each, and the total. Its parser is the
    one of `ModelList` (the two texts agree line for line), so only the report is modelled here. */
module ModelTest {
  import opened Options
  import opened ModelList

  /** The sum of a sequence of counts. */
  function Sum(s: seq<nat>): nat {
    if s == [] then 0 else Sum(s[..|s| - 1]) + s[|s| - 1]
  }

  /** The number of models under each key, in key order. */
  function Counts(keys: seq<string>, lists: map<string, seq<string>>): (r: seq<nat>)
    requires Covers(keys, lists)
    ensures |r| == |keys|
    ensures forall i :: 0 <= i < |keys| ==> r[i] == |lists[keys[i]]|
  {
    seq(|keys|, i requires 0 <= i < |keys| => |lists[keys[i]]|)
  }

  /** The total is the sum of the per-category counts, and so the number of records `GET` lists. */
  lemma {:induction false} TotalIsSum(keys: seq<string>, lists: map<string, seq<string>>)
    requires Covers(keys, lists)
    ensures TotalCount(keys, lists) == Sum(Counts(keys, lists))
    ensures Sum(Counts(keys, lists)) == |Flatten(keys, lists)|
  {
    if keys != [] {
      var init := keys[..|keys| - 1];
      TotalIsSum(init, lists);
      assert Counts(keys, lists)[..|keys| - 1] == Counts(init, lists);
    }
  }

  /** What the script reports: the keys of the record, the length of each list and their sum;
      `ReportFailed` when reading or parsing throws and the script logs the error instead. */
  datatype Report =
    | Reported(categories: seq<string>, counts: seq<nat>, total: nat)
    | ReportFailed

  /** The loop that reports each category's count and adds it to `totalModels`. */
  method CountModels(models: ModelMap) returns (counts: seq<nat>, totalModels: nat)
    requires Covers(models.keys, models.lists)
    ensures counts == Counts(models.keys, models.lists)
    ensures totalModels == Sum(counts)
  {
    counts := [];
    totalModels := 0;
    var i := 0;
    while i < |models.keys|
      invariant 0 <= i <= |models.keys|
      invariant counts == Counts(models.keys[..i], models.lists)
      invariant totalModels == Sum(counts)
    {
      var modelList := models.lists[models.keys[i]];
      assert counts + [|modelList|] == Counts(models.keys[..i + 1], models.lists);
      assert (counts + [|modelList|])[..|counts|] == counts;
      counts := counts + [|modelList|];
      totalModels := totalModels + |modelList|;
      i := i + 1;
    }
    assert models.keys[..i] == models.keys;
  }

  /** The script, with the document's text passed in (`None` when reading it throws). Its total is
      the number of records the route's `GET` would list for the same document. */
  method TestModels(content: Option<string>) returns (report: Report)
    ensures content.None? <==> report.ReportFailed?
    ensures content.Some? ==>
      var m := Parse(content.value);
      Covers(m.keys, m.lists) &&
      report == Reported(m.keys, Counts(m.keys, m.lists), TotalCount(m.keys, m.lists)) &&
      report.total == |Flatten(m.keys, m.lists)|
  {
    if content.None? {
      return ReportFailed;
    }
    var models := ParseModelReferences(content.value);
    ParseCovers(content.value);
    var counts, totalModels := CountModels(models);
    TotalIsSum(models.keys, models.lists);
    report := Reported(models.keys, counts, totalModels);
  }
}
