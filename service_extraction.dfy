/** Best-effort, purely textual extraction of a service name from a
    monitor: first from its `service:` tag, otherwise from the first
    `service:<name>` token of its query. */
module ServiceExtraction {
  import opened Common
  import opened DashboardTypes

  const ServicePrefix: string := "service:"

  predicate HasServiceTag(tags: seq<string>) {
    exists k :: 0 <= k < |tags| && StartsWith(tags[k], ServicePrefix)
  }

  /** `tags[k]` is the tag `tags.find(tag => tag.startsWith('service:'))` returns. */
  predicate FirstServiceTag(tags: seq<string>, k: int) {
    0 <= k < |tags| && StartsWith(tags[k], ServicePrefix)
    && forall j :: 0 <= j < k ==> !StartsWith(tags[j], ServicePrefix)
  }

  /** `s` is the text of `tag` between "service:" and the next colon (or the end). */
  predicate TagService(tag: string, s: string) {
    StartsWith(tag, ServicePrefix + s) && ':' !in s
    && (|ServicePrefix| + |s| == |tag| || tag[|ServicePrefix| + |s|] == ':')
  }

  function FindServiceTag(tags: seq<string>): (r: Option<nat>)
    ensures r.Some? ==> FirstServiceTag(tags, r.value)
    ensures r.None? <==> !HasServiceTag(tags)
  {
    if tags == [] then None
    else if StartsWith(tags[0], ServicePrefix) then Some(0)
    else
      match FindServiceTag(tags[1..])
      case None => None
      case Some(k) => Some(k + 1)
  }

  /** The text of `s` before its first colon (all of `s` when it has none). */
  function UpToColon(s: string): (r: string)
    ensures StartsWith(s, r) && ':' !in r
    ensures |r| < |s| ==> s[|r|] == ':'
  {
    if s == [] || s[0] == ':' then "" else [s[0]] + UpToColon(s[1..])
  }

  /** The characters of `[a-zA-Z0-9_-]`. */
  predicate IsServiceChar(c: char) {
    ('a' <= c <= 'z') || ('A' <= c <= 'Z') || ('0' <= c <= '9') || c == '_' || c == '-'
  }

  /** The regular expression `service:([a-zA-Z0-9_-]+)` matches at position `i` of `q`. */
  predicate MatchesAt(q: string, i: int) {
    0 <= i && i + |ServicePrefix| < |q| && q[i..i + |ServicePrefix|] == ServicePrefix
    && IsServiceChar(q[i + |ServicePrefix|])
  }

  /** The greedy `[a-zA-Z0-9_-]+` run at the start of `s`. */
  function ServiceRun(s: string): (r: string)
    ensures StartsWith(s, r)
    ensures forall i :: 0 <= i < |r| ==> IsServiceChar(r[i])
    ensures |r| < |s| ==> !IsServiceChar(s[|r|])
  {
    if s == [] || !IsServiceChar(s[0]) then "" else [s[0]] + ServiceRun(s[1..])
  }

  /** The leftmost match position at or after `i`, as `String.prototype.match` finds it. */
  function FirstMatch(q: string, i: nat): (r: Option<nat>)
    requires i <= |q|
    ensures r.Some? ==> i <= r.value < |q| && MatchesAt(q, r.value)
    ensures r.Some? ==> forall j :: i <= j < r.value ==> !MatchesAt(q, j)
    ensures r.None? ==> forall j :: i <= j < |q| ==> !MatchesAt(q, j)
    decreases |q| - i
  {
    if i == |q| then None
    else if MatchesAt(q, i) then Some(i)
    else FirstMatch(q, i + 1)
  }

  /** `s` is the capture group of the leftmost match, which starts at `i`. */
  predicate QueryService(q: string, i: int, s: string) {
    MatchesAt(q, i) && (forall j :: 0 <= j < i ==> !MatchesAt(q, j))
    && StartsWith(q[i + |ServicePrefix|..], s) && s != []
    && (forall k :: 0 <= k < |s| ==> IsServiceChar(s[k]))
    && (i + |ServicePrefix| + |s| == |q| || !IsServiceChar(q[i + |ServicePrefix| + |s|]))
  }

  /** `extractServiceFromMonitor`: the tag wins whenever one starts with
      "service:", even when the text after it is empty; only without such a
      tag is the query searched. */
  function ExtractServiceFromMonitor(m: Monitor): (r: Option<string>)
    ensures HasServiceTag(m.tags) ==>
      r.Some? && exists k :: FirstServiceTag(m.tags, k) && TagService(m.tags[k], r.value)
    ensures !HasServiceTag(m.tags) ==>
      (r.Some? <==> exists i :: 0 <= i < |m.query| && MatchesAt(m.query, i))
    ensures !HasServiceTag(m.tags) && r.Some? ==>
      exists i :: 0 <= i < |m.query| && QueryService(m.query, i, r.value)
  {
    match FindServiceTag(m.tags)
    case Some(k) =>
      // `serviceTag.split(':')[1]`: the tag opens with "service:", so the
      // second field is what follows that colon, up to the next one.
      var s := UpToColon(m.tags[k][|ServicePrefix|..]);
      assert m.tags[k][..|ServicePrefix| + |s|] == ServicePrefix + s;
      Some(s)
    case None =>
      match FirstMatch(m.query, 0)
      case None => None
      case Some(i) =>
        var s := ServiceRun(m.query[i + |ServicePrefix|..]);
        assert QueryService(m.query, i, s);
        Some(s)
  }

  /** The service as the notes and the fallback design test it: a missing or
      empty name both count as "no service". */
  function ServiceName(m: Monitor): (s: string)
    ensures s != "" ==> ExtractServiceFromMonitor(m) == Some(s)
    ensures s == "" <==> ExtractServiceFromMonitor(m).None? || ExtractServiceFromMonitor(m) == Some("")
  {
    match ExtractServiceFromMonitor(m)
    case Some(s) => s
    case None => ""
  }

  /** A text without a colon is its own first field. */
  lemma UpToColonWhole(s: string)
    requires ':' !in s
    ensures UpToColon(s) == s
  {
  }

  /** The run is determined by where the service characters stop. */
  lemma ServiceRunStops(s: string, k: nat)
    requires k <= |s|
    requires forall i :: 0 <= i < k ==> IsServiceChar(s[i])
    requires k < |s| ==> !IsServiceChar(s[k])
    ensures ServiceRun(s) == s[..k]
  {
  }

  lemma TagExample()
    ensures ExtractServiceFromMonitor(Monitor(1, "m", "metric alert", "avg:x{*}", "", ["env:prod", "service:checkout"], "OK"))
            == Some("checkout")
  {
    var tags := ["env:prod", "service:checkout"];
    assert tags[0][..|ServicePrefix|][0] != ServicePrefix[0];
    assert tags[1][..|ServicePrefix|] == ServicePrefix;
    assert FindServiceTag(tags[1..]) == Some(0);
    assert FindServiceTag(tags) == Some(1);
    assert tags[1][|ServicePrefix|..] == "checkout";
    UpToColonWhole("checkout");
  }

  lemma QueryExample()
    ensures ExtractServiceFromMonitor(Monitor(1, "m", "metric alert", "avg:latency{service:billing}", "", [], "OK"))
            == Some("billing")
  {
    var q := "avg:latency{service:billing}";
    assert q[12..12 + |ServicePrefix|] == ServicePrefix;
    assert MatchesAt(q, 12);
    assert FirstMatch(q, 12) == Some(12);
    assert forall k :: 0 <= k < 12 ==> q[k] != 's';
    forall j | 0 <= j < 12 ensures !MatchesAt(q, j) {
      assert q[j..j + |ServicePrefix|][0] == q[j];
    }
    var f := FirstMatch(q, 0);
    assert f == Some(12);
    var rest := q[12 + |ServicePrefix|..];
    assert rest == "billing}";
    ServiceRunStops(rest, 7);
    assert rest[..7] == "billing";
  }

  /** A bare "service:" tag yields the empty name, which callers treat as no
      service, and the query is never consulted. */
  lemma EmptyServiceTagHidesQuery()
    ensures ServiceName(Monitor(1, "m", "metric alert", "sum:hits{service:web}", "", ["service:"], "OK")) == ""
  {
    var m := Monitor(1, "m", "metric alert", "sum:hits{service:web}", "", ["service:"], "OK");
    assert FindServiceTag(m.tags) == Some(0);
  }
}
