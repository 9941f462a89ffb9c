/** The shared route table: the paths with placeholders that the client
    fills in with `buildUrl`, and the body schema of the two status-update
    routes. */
module Api {
  import opened Wrappers
  import opened Schema
  import opened Text

  const TaskPath: string := "/api/tasks/:id"
  const LeaveStatusPath: string := "/api/leaves/:id/status"
  const ExpenseStatusPath: string := "/api/expenses/:id/status"

  // ---- the status-update body ----

  datatype StatusBody = StatusBody(status: Option<string>, approvedById: Option<int>)
  datatype StatusUpdate = StatusUpdate(status: string, approvedById: Option<int>)

  /** The declared input of the leave and expense status updates: a status
      that is "pending", "approved" or "rejected", and an optional number. */
  function ParseStatusUpdate(b: StatusBody): (r: Result<StatusUpdate, seq<Issue>>)
    ensures r.Ok? <==> b.status.Some? && b.status.value in ApprovalStatuses
    ensures r.Ok? ==> r.value.status == b.status.value && r.value.approvedById == b.approvedById
    ensures r.Err? ==> r.error != []
  {
    var issues := RequiredListed(b.status, ApprovalStatuses, "status");
    if issues != [] then Err(issues) else Ok(StatusUpdate(b.status.value, b.approvedById))
  }

  // ---- buildUrl ----

  /** A parameter value: a string, or an integer that `String` turns into digits. */
  datatype ParamValue = Str(s: string) | Num(n: int)

  function ParamText(v: ParamValue): string
  {
    match v
    case Str(s) => s
    case Num(n) => IntToString(n)
  }

  /** One entry of the loop: when ":key" occurs in the url, its first
      occurrence is replaced by the value (as by `String.prototype.replace`
      with a string pattern); otherwise the url is kept. */
  function ApplyParam(url: string, key: string, value: ParamValue): (r: string)
    ensures !Includes(url, ":" + key) ==> r == url
    ensures Includes(url, ":" + key) ==> r == ReplaceFirst(url, ":" + key, ParamText(value))
  {
    if Includes(url, ":" + key) then ReplaceFirst(url, ":" + key, ParamText(value)) else url
  }

  /** The entries applied in order, each to the url the previous ones left. */
  function ApplyParams(url: string, params: seq<(string, ParamValue)>): string
    decreases |params|
  {
    if params == [] then url else ApplyParams(ApplyParam(url, params[0].0, params[0].1), params[1..])
  }

  /** `buildUrl(path, params)`, with the params given as the entries that
      `Object.entries` lists, in its order. */
  method BuildUrl(path: string, params: Option<seq<(string, ParamValue)>>) returns (url: string)
    ensures params.None? ==> url == path
    ensures params.Some? ==> url == ApplyParams(path, params.value)
  {
    url := path;
    if params.Some? {
      var entries := params.value;
      var k := 0;
      while k < |entries|
        invariant 0 <= k <= |entries|
        invariant ApplyParams(url, entries[k..]) == ApplyParams(path, entries)
      {
        var (key, value) := entries[k];
        assert entries[k..][1..] == entries[k + 1..];
        if Includes(url, ":" + key) {
          url := ReplaceFirst(url, ":" + key, ParamText(value));
        }
        k := k + 1;
      }
    }
  }

  /** No entries, no change. */
  lemma NoParamsUnchanged(path: string)
    ensures ApplyParams(path, []) == path
  {
  }

  /** A key whose placeholder is not in the url changes nothing. */
  lemma AbsentKeyUnchanged(url: string, key: string, value: ParamValue)
    requires forall j :: !OccursAt(url, ":" + key, j)
    ensures ApplyParam(url, key, value) == url
  {
  }

  /** The digits of a number carry no `$`, so they are inserted literally. */
  lemma NumTextPlain(n: int)
    ensures '$' !in ParamText(Num(n))
  {
    var d := NatToString(if n < 0 then -n else n);
    assert '$' !in d by {
      forall i | 0 <= i < |d| ensures d[i] != '$' { }
    }
    if n < 0 {
      assert ParamText(Num(n)) == "-" + d;
    }
  }

  /** The placeholder written right after a text without ':' is the first
      occurrence, and only it is replaced: the value's template is expanded
      against the text before and after it, and the text after it is kept
      verbatim, including any later ":key". */
  lemma ReplacesAt(prefix: string, key: string, suffix: string, value: ParamValue)
    requires ':' !in prefix
    ensures ApplyParam(prefix + ":" + key + suffix, key, value)
            == prefix + Substitute(ParamText(value), ":" + key, prefix, suffix) + suffix
  {
    var p := ":" + key;
    var s := prefix + p + suffix;
    assert prefix + ":" + key + suffix == s;
    assert s == prefix + (p + suffix);
    assert s[|prefix|..|prefix| + |p|] == p;
    NoOccurrenceBefore(prefix, p + suffix, p);
    IndexOfFirst(s, p, |prefix|);
    assert s[..|prefix|] == prefix;
    assert s[|prefix| + |p|..] == suffix;
  }

  /** A value without `$` is inserted literally in place of the first placeholder. */
  lemma ReplacesFirstPlaceholder(prefix: string, key: string, suffix: string, value: ParamValue)
    requires ':' !in prefix && '$' !in ParamText(value)
    ensures ApplyParam(prefix + ":" + key + suffix, key, value) == prefix + ParamText(value) + suffix
  {
    ReplacesAt(prefix, key, suffix, value);
    SubstitutePlain(ParamText(value), ":" + key, prefix, suffix);
  }

  /** The task path with an id n is "/api/tasks/" followed by n's digits. */
  lemma TaskUrl(n: int)
    ensures ApplyParams(TaskPath, [("id", Num(n))]) == "/api/tasks/" + IntToString(n)
  {
    NumTextPlain(n);
    assert TaskPath == "/api/tasks/" + ":" + "id" + "";
    ReplacesFirstPlaceholder("/api/tasks/", "id", "", Num(n));
  }

  /** The status paths keep their "/status" suffix. */
  lemma LeaveStatusUrl(n: int)
    ensures ApplyParams(LeaveStatusPath, [("id", Num(n))]) == "/api/leaves/" + IntToString(n) + "/status"
  {
    NumTextPlain(n);
    assert LeaveStatusPath == "/api/leaves/" + ":" + "id" + "/status";
    ReplacesFirstPlaceholder("/api/leaves/", "id", "/status", Num(n));
  }

  /** Only the first of two equal placeholders is replaced. */
  lemma OnlyFirstReplaced(n: int)
    ensures ApplyParam("/a/:id/:id", "id", Num(n)) == "/a/" + IntToString(n) + "/:id"
  {
    NumTextPlain(n);
    assert "/a/:id/:id" == "/a/" + ":" + "id" + "/:id";
    ReplacesFirstPlaceholder("/a/", "id", "/:id", Num(n));
  }

  /** The match is on text, not on path segments: a key rewrites the
      beginning of any longer placeholder it starts, as "id" does to ":idx". */
  lemma PrefixOfLongerKey(key: string, more: string, n: int)
    ensures ApplyParam("/items/:" + key + more, key, Num(n)) == "/items/" + IntToString(n) + more
  {
    NumTextPlain(n);
    assert "/items/:" + key + more == "/items/" + ":" + key + more;
    ReplacesFirstPlaceholder("/items/", key, more, Num(n));
  }

  lemma TwoParams(url: string, e1: (string, ParamValue), e2: (string, ParamValue))
    ensures ApplyParams(url, [e1, e2]) == ApplyParam(ApplyParam(url, e1.0, e1.1), e2.0, e2.1)
  {
    var u1 := ApplyParam(url, e1.0, e1.1);
    assert [e1, e2][1..] == [e2];
    assert ApplyParams(url, [e1, e2]) == ApplyParams(u1, [e2]);
    assert [e2][1..] == [];
    assert ApplyParams(u1, [e2]) == ApplyParams(ApplyParam(u1, e2.0, e2.1), []);
  }

  /** The first step of `LaterKeySeesInsertedText`. */
  lemma StepA()
    ensures ApplyParam("/x/:a", "a", Str(":b")) == "/x/:b"
  {
    ReplacesFirstPlaceholder("/x/", "a", "", Str(":b"));
    assert "/x/" + ":" + "a" + "" == "/x/:a";
    assert "/x/" + ParamText(Str(":b")) + "" == "/x/:b";
  }

  /** The second step of `LaterKeySeesInsertedText`. */
  lemma StepB()
    ensures ApplyParam("/x/:b", "b", Num(1)) == "/x/1"
  {
    NumTextPlain(1);
    ReplacesFirstPlaceholder("/x/", "b", "", Num(1));
    assert "/x/" + ":" + "b" + "" == "/x/:b";
    assert ParamText(Num(1)) == "1";
  }

  /** A later entry sees the text inserted by an earlier one. */
  lemma LaterKeySeesInsertedText()
    ensures ApplyParams("/x/:a", [("a", Str(":b")), ("b", Num(1))]) == "/x/1"
  {
    TwoParams("/x/:a", ("a", Str(":b")), ("b", Num(1)));
    StepA();
    StepB();
  }

  /** A string value is a replacement template: "$&" puts the placeholder itself back. */
  lemma DollarAmpersandKeepsPlaceholder()
    ensures ApplyParam("/x/:id", "id", Str("$&")) == "/x/:id"
  {
    ReplacesAt("/x/", "id", "", Str("$&"));
    assert "/x/" + ":" + "id" + "" == "/x/:id";
    assert Substitute("$&", ":id", "/x/", "") == ":id" + Substitute("", ":id", "/x/", "");
  }
}
