/** `scan`: parse nmcli's lines, keep the strongest entry of each SSID, list the best 64. */
module Scan {
  import opened Options
  import opened Protocol
  import opened Sorting
  import Fields

  datatype Security = Open | WpaPersonal | Enterprise | Unsupported

  datatype AccessPoint = AccessPoint(
    ssid: string,
    signal: int,
    security: Security,
    connected: bool,
    keyManagement: Option<string>
  )

  // ---------------------------------------------------------------------------------------
  // One line

  predicate Whitespace(c: char) {
    c == ' ' || 9 <= c as int <= 13 || 28 <= c as int <= 31
  }

  function StripLeft(text: string): string {
    if text != "" && Whitespace(text[0]) then StripLeft(text[1..]) else text
  }

  function StripRight(text: string): string {
    if text != "" && Whitespace(text[|text| - 1]) then StripRight(text[..|text| - 1]) else text
  }

  function Strip(text: string): string {
    StripRight(StripLeft(text))
  }

  lemma {:induction false} UnspacedIsStripped(text: string)
    requires text != "" && !Whitespace(text[0]) && !Whitespace(text[|text| - 1])
    ensures Strip(text) == text
  {
    assert StripLeft(text) == text;
  }

  /** Digits with single underscores between them. */
  function Digits(text: string, value: int, afterDigit: bool): Option<int> {
    if text == "" then if afterDigit then Some(value) else None
    else if '0' <= text[0] <= '9' then Digits(text[1..], 10 * value + (text[0] as int - '0' as int), true)
    else if text[0] == '_' && afterDigit then Digits(text[1..], value, false)
    else None
  }

  /** Python's `int(text)`; None is its ValueError. */
  function ParseInt(text: string): Option<int> {
    var t := Strip(text);
    if t != "" && t[0] == '-' then
      match Digits(t[1..], 0, false)
      case Some(n) => Some(-n)
      case None => None
    else if t != "" && t[0] == '+' then Digits(t[1..], 0, false)
    else Digits(t, 0, false)
  }

  function Upper(text: string): string {
    seq(|text|, i requires 0 <= i < |text| =>
      if 'a' <= text[i] <= 'z' then ((text[i] as int) - 32) as char else text[i])
  }

  predicate OccursAt(text: string, part: string, i: nat) {
    i + |part| <= |text| && text[i..i + |part|] == part
  }

  predicate Contains(text: string, part: string) {
    exists i: nat | i <= |text| :: OccursAt(text, part, i)
  }

  function ClassifySecurity(raw: string): (r: (Security, Option<string>))
    ensures r.1.Some? <==> r.0 == WpaPersonal
  {
    var normalized := Strip(Upper(raw));
    if normalized == "" || normalized == "--" then (Open, None)
    else if Contains(normalized, "802.1X") || Contains(normalized, "EAP") then (Enterprise, None)
    else if Contains(normalized, "WEP") then (Unsupported, None)
    else if Contains(normalized, "WPA") then
      (WpaPersonal,
       Some(if Contains(normalized, "WPA3") && !Contains(normalized, "WPA2") then "sae" else "wpa-psk"))
    else (Unsupported, None)
  }

  function ParseAccessPoint(line: string): (r: Option<AccessPoint>)
    ensures r.Some? ==> ValidSsid(r.value.ssid) && 0 <= r.value.signal <= 100
    ensures r.Some? ==> (r.value.keyManagement.Some? <==> r.value.security == WpaPersonal)
  {
    var fields := Fields.Split(line);
    if |fields| != 4 || !ValidSsid(fields[0]) then None
    else
      match ParseInt(fields[1])
      case None => None
      case Some(signal) =>
        if !(0 <= signal <= 100) then None
        else
          var (security, keyManagement) := ClassifySecurity(fields[2]);
          Some(AccessPoint(fields[0], signal, security, fields[3] == "*", keyManagement))
  }

  function Parsed(lines: seq<string>): seq<AccessPoint> {
    if lines == [] then []
    else
      Parsed(lines[..|lines| - 1]) +
      match ParseAccessPoint(lines[|lines| - 1])
      case Some(point) => [point]
      case None => []
  }

  // ---------------------------------------------------------------------------------------
  // The listing order

  function Lower(text: string): string {
    seq(|text|, i requires 0 <= i < |text| =>
      if 'A' <= text[i] <= 'Z' then ((text[i] as int) + 32) as char else text[i])
  }

  predicate LexLe(a: string, b: string) {
    a == "" || (b != "" && (a[0] < b[0] || (a[0] == b[0] && LexLe(a[1..], b[1..]))))
  }

  lemma {:induction false} LexTotal(a: string, b: string)
    ensures LexLe(a, b) || LexLe(b, a)
  {
    if a != "" && b != "" {
      LexTotal(a[1..], b[1..]);
    }
  }

  lemma {:induction false} LexTransitive(a: string, b: string, c: string)
    requires LexLe(a, b) && LexLe(b, c)
    ensures LexLe(a, c)
  {
    if a != "" && a[0] == b[0] == c[0] {
      LexTransitive(a[1..], b[1..], c[1..]);
    }
  }

  /** The dictionary order: `a` begins `b`, or the first difference decides. */
  lemma {:induction false} LexLeIff(a: string, b: string)
    ensures LexLe(a, b) <==>
      || a <= b
      || exists k: nat :: k < |a| && k < |b| && a[..k] == b[..k] && a[k] < b[k]
  {
    if a == "" || b == "" {
    } else if a[0] != b[0] {
      assert a[..0] == b[..0];
      assert forall k: nat :: 0 < k < |a| && k < |b| ==> a[..k][0] != b[..k][0];
    } else {
      LexLeIff(a[1..], b[1..]);
      assert a == [a[0]] + a[1..] && b == [b[0]] + b[1..];
      if k: nat :| k < |a| && k < |b| && a[..k] == b[..k] && a[k] < b[k] {
        assert a[1..][..k - 1] == a[..k][1..] && b[1..][..k - 1] == b[..k][1..];
      }
      if k: nat :| k < |a| - 1 && k < |b| - 1 && a[1..][..k] == b[1..][..k] && a[1..][k] < b[1..][k] {
        assert a[..k + 1] == [a[0]] + a[1..][..k] && b[..k + 1] == [b[0]] + b[1..][..k];
      }
    }
  }

  predicate ListedBefore(a: AccessPoint, b: AccessPoint) {
    a.signal > b.signal || (a.signal == b.signal && LexLe(Lower(a.ssid), Lower(b.ssid)))
  }

  lemma {:induction false} ListedBeforeIsTotal()
    ensures TotalPreorder(ListedBefore)
  {
    forall a: AccessPoint, b: AccessPoint
      ensures ListedBefore(a, b) || ListedBefore(b, a)
    {
      LexTotal(Lower(a.ssid), Lower(b.ssid));
    }
    forall a: AccessPoint, b: AccessPoint, c: AccessPoint | ListedBefore(a, b) && ListedBefore(b, c)
      ensures ListedBefore(a, c)
    {
      if a.signal == b.signal == c.signal {
        LexTransitive(Lower(a.ssid), Lower(b.ssid), Lower(c.ssid));
      }
    }
  }

  // ---------------------------------------------------------------------------------------
  // The strongest entry of each SSID

  /** `points[i]` is the strongest of its SSID and the earliest of equally strong ones. */
  predicate Champion(points: seq<AccessPoint>, i: nat)
    requires i < |points|
  {
    forall j :: 0 <= j < |points| && points[j].ssid == points[i].ssid ==>
      points[j].signal <= points[i].signal && (j < i ==> points[j].signal < points[i].signal)
  }

  ghost predicate IsChampion(points: seq<AccessPoint>, point: AccessPoint) {
    exists i: nat | i < |points| :: points[i] == point && Champion(points, i)
  }

  /** The dict holds exactly the champions so far, in first-seen order of their SSIDs. */
  ghost predicate Strongest(points: seq<AccessPoint>, order: seq<string>, strongest: map<string, AccessPoint>) {
    && Distinct(order)
    && (forall ssid :: ssid in order <==> ssid in strongest)
    && (forall i :: 0 <= i < |points| ==> points[i].ssid in strongest)
    && (forall ssid :: ssid in strongest ==> strongest[ssid].ssid == ssid && IsChampion(points, strongest[ssid]))
  }

  /** What the caller of `scan` may rely on. */
  ghost predicate Listing(points: seq<AccessPoint>, listed: seq<AccessPoint>) {
    && |listed| <= MAX_NETWORKS
    && Sorted(listed, ListedBefore)
    && (forall i, j :: 0 <= i < j < |listed| ==> listed[i].ssid != listed[j].ssid)
    && (forall i :: 0 <= i < |listed| ==> IsChampion(points, listed[i]))
    && (forall p :: p in points ==> Represented(p, listed))
  }

  ghost predicate Represented(p: AccessPoint, listed: seq<AccessPoint>) {
    || (exists r :: r in listed && r.ssid == p.ssid && r.signal >= p.signal)
    || (|listed| == MAX_NETWORKS && forall r :: r in listed ==> r.signal >= p.signal)
  }

  lemma {:induction false} ChampionsGrow(points: seq<AccessPoint>, point: AccessPoint, champion: AccessPoint)
    requires IsChampion(points, champion)
    requires champion.ssid != point.ssid || point.signal <= champion.signal
    ensures IsChampion(points + [point], champion)
  {
    var i: nat :| i < |points| && points[i] == champion && Champion(points, i);
    assert (points + [point])[i] == champion && Champion(points + [point], i);
  }

  lemma {:induction false} NewChampion(
      points: seq<AccessPoint>, point: AccessPoint, former: Option<AccessPoint>)
    requires former.None? ==> forall i :: 0 <= i < |points| ==> points[i].ssid != point.ssid
    requires former.Some? ==> IsChampion(points, former.value) && former.value.ssid == point.ssid
                              && point.signal > former.value.signal
    ensures IsChampion(points + [point], point)
  {
    assert (points + [point])[|points|] == point;
    assert Champion(points + [point], |points|);
  }

  /** The loop over nmcli's lines; the key order is what Python's dict keeps. */
  method KeepStrongest(lines: seq<string>) returns (order: seq<string>, strongest: map<string, AccessPoint>)
    ensures Strongest(Parsed(lines), order, strongest)
  {
    order, strongest := [], map[];
    for i := 0 to |lines|
      invariant Strongest(Parsed(lines[..i]), order, strongest)
    {
      var point := ParseAccessPoint(lines[i]);
      ghost var seen := Parsed(lines[..i]);
      assert lines[..i + 1][..i] == lines[..i];
      if point.Some? {
        var p := point.value;
        assert Parsed(lines[..i + 1]) == seen + [p];
        if p.ssid !in strongest {
          NewChampion(seen, p, None);
          forall ssid | ssid in strongest
            ensures IsChampion(seen + [p], strongest[ssid])
          {
            ChampionsGrow(seen, p, strongest[ssid]);
          }
          order, strongest := order + [p.ssid], strongest[p.ssid := p];
        } else if p.signal > strongest[p.ssid].signal {
          NewChampion(seen, p, Some(strongest[p.ssid]));
          forall ssid | ssid in strongest && ssid != p.ssid
            ensures IsChampion(seen + [p], strongest[ssid])
          {
            ChampionsGrow(seen, p, strongest[ssid]);
          }
          strongest := strongest[p.ssid := p];
        } else {
          forall ssid | ssid in strongest
            ensures IsChampion(seen + [p], strongest[ssid])
          {
            ChampionsGrow(seen, p, strongest[ssid]);
          }
        }
      } else {
        assert Parsed(lines[..i + 1]) == seen;
      }
    }
    assert lines[..|lines|] == lines;
  }

  function Values(order: seq<string>, strongest: map<string, AccessPoint>): seq<AccessPoint>
    requires forall ssid :: ssid in order ==> ssid in strongest
  {
    seq(|order|, i requires 0 <= i < |order| => strongest[order[i]])
  }

  /** Python's `[:MAX_NETWORKS]`. */
  function Top(sorted: seq<AccessPoint>): seq<AccessPoint> {
    if |sorted| <= MAX_NETWORKS then sorted else sorted[..MAX_NETWORKS]
  }

  lemma {:induction false} ValuesAreChampions(
      points: seq<AccessPoint>, order: seq<string>, strongest: map<string, AccessPoint>)
    requires Strongest(points, order, strongest)
    ensures var values := Values(order, strongest);
      && Distinct(values)
      && forall x :: x in values ==> IsChampion(points, x) && x.ssid in strongest && strongest[x.ssid] == x
  {
    var values := Values(order, strongest);
    forall x | x in values
      ensures IsChampion(points, x) && x.ssid in strongest && strongest[x.ssid] == x
    {
      var i :| 0 <= i < |values| && values[i] == x;
      assert order[i] in strongest;
    }
    forall i, j | 0 <= i < j < |values|
      ensures values[i] != values[j]
    {
      assert order[i] in strongest && order[j] in strongest;
      assert values[i].ssid == order[i] && values[j].ssid == order[j];
    }
  }

  lemma {:induction false} UniqueSsids(sorted: seq<AccessPoint>, strongest: map<string, AccessPoint>)
    requires Distinct(sorted)
    requires forall x :: x in sorted ==> x.ssid in strongest && strongest[x.ssid] == x
    ensures forall i, j :: 0 <= i < j < |sorted| ==> sorted[i].ssid != sorted[j].ssid
  {
    forall i, j | 0 <= i < j < |sorted|
      ensures sorted[i].ssid != sorted[j].ssid
    {
      assert sorted[i] in sorted && sorted[j] in sorted;
    }
  }

  lemma {:induction false} TopKeeps(points: seq<AccessPoint>, sorted: seq<AccessPoint>)
    requires Sorted(sorted, ListedBefore)
    requires forall i, j :: 0 <= i < j < |sorted| ==> sorted[i].ssid != sorted[j].ssid
    requires forall x :: x in sorted ==> IsChampion(points, x)
    requires forall p :: p in points ==> Represented(p, Top(sorted))
    ensures Listing(points, Top(sorted))
  {
    forall i | 0 <= i < |Top(sorted)|
      ensures IsChampion(points, Top(sorted)[i])
    {
      assert sorted[i] in sorted;
    }
  }

  lemma {:induction false} TopIsListing(
      points: seq<AccessPoint>, order: seq<string>, strongest: map<string, AccessPoint>)
    requires Strongest(points, order, strongest)
    ensures Listing(points, Top(Sort(Values(order, strongest), ListedBefore)))
  {
    var values := Values(order, strongest);
    var sorted := Sort(values, ListedBefore);
    ListedBeforeIsTotal();
    SortSorted(values, ListedBefore);
    SameElements(values, sorted);
    ValuesAreChampions(points, order, strongest);
    assert forall x :: x in sorted ==> x in values;
    RearrangedDistinct(values, sorted);
    UniqueSsids(sorted, strongest);
    forall p | p in points
      ensures Represented(p, Top(sorted))
    {
      StrongestRepresents(points, order, strongest, sorted, p);
    }
    TopKeeps(points, sorted);
  }

  lemma {:induction false} StrongestRepresents(
      points: seq<AccessPoint>, order: seq<string>, strongest: map<string, AccessPoint>,
      sorted: seq<AccessPoint>, p: AccessPoint)
    requires Strongest(points, order, strongest) && p in points
    requires Sorted(sorted, ListedBefore)
    requires forall x :: x in sorted <==> x in Values(order, strongest)
    ensures Represented(p, Top(sorted))
  {
    var listed := Top(sorted);
    var champion := strongest[p.ssid];
    var i: nat :| i < |points| && points[i] == champion && Champion(points, i);
    var j :| 0 <= j < |points| && points[j] == p;
    assert champion.signal >= p.signal;
    var n :| 0 <= n < |order| && order[n] == p.ssid;
    assert Values(order, strongest)[n] == champion;
    assert champion in sorted;
    var k :| 0 <= k < |sorted| && sorted[k] == champion;
    if k < MAX_NETWORKS {
      assert listed[k] == champion;
    } else {
      forall r | r in listed
        ensures r.signal >= p.signal
      {
        var m :| 0 <= m < |listed| && listed[m] == r;
        assert ListedBefore(sorted[m], sorted[k]);
      }
    }
  }

  /** The body of `scan` once nmcli has answered. */
  method StrongestPerSsid(lines: seq<string>) returns (listed: seq<AccessPoint>)
    ensures Listing(Parsed(lines), listed) && |listed| <= 64
    ensures forall i, j :: 0 <= i < j < |listed| ==>
      || listed[i].signal > listed[j].signal
      || (listed[i].signal == listed[j].signal && LexLe(Lower(listed[i].ssid), Lower(listed[j].ssid)))
  {
    var order, strongest := KeepStrongest(lines);
    var sorted := Sort(Values(order, strongest), ListedBefore);
    TopIsListing(Parsed(lines), order, strongest);
    listed := Top(sorted);
  }
}
