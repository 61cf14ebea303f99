/** The nearby-option suggestion: a table of edit distances, and the one candidate it may name. */
module EditDistance {
  import opened Records

  // ---- edit scripts ----

  /** One edit, left to right. A swap turns two adjacent characters around and touches them no further. */
  datatype Edit =
    | Keep(c: char)
    | Insert(c: char)
    | Delete(c: char)
    | Substitute(from: char, to: char)
    | Swap(first: char, second: char)

  function Before(edit: Edit): string {
    match edit
    case Keep(c) => [c]
    case Insert(_) => []
    case Delete(c) => [c]
    case Substitute(from, _) => [from]
    case Swap(first, second) => [first, second]
  }

  function After(edit: Edit): string {
    match edit
    case Keep(c) => [c]
    case Insert(c) => [c]
    case Delete(_) => []
    case Substitute(_, to) => [to]
    case Swap(first, second) => [second, first]
  }

  function Source(script: seq<Edit>): string {
    if script == [] then [] else Source(script[..|script| - 1]) + Before(script[|script| - 1])
  }

  function Target(script: seq<Edit>): string {
    if script == [] then [] else Target(script[..|script| - 1]) + After(script[|script| - 1])
  }

  function Cost(script: seq<Edit>): nat {
    if script == [] then 0 else Cost(script[..|script| - 1]) + if script[|script| - 1].Keep? then 0 else 1
  }

  predicate Transforms(script: seq<Edit>, left: string, right: string) {
    Source(script) == left && Target(script) == right
  }

  // ---- the recurrence the table fills ----

  function Min(a: nat, b: nat): nat {
    if a <= b then a else b
  }

  predicate SwapsAtEnd(left: string, right: string) {
    && |left| > 1 && |right| > 1
    && left[|left| - 1] == right[|right| - 2] && left[|left| - 2] == right[|right| - 1]
  }

  function Distance(left: string, right: string): nat
    decreases |left| + |right|
  {
    if left == [] then |right|
    else if right == [] then |left|
    else
      var l, r := left[..|left| - 1], right[..|right| - 1];
      var substitution := Distance(l, r) + if left[|left| - 1] == right[|right| - 1] then 0 else 1;
      var least := Min(Min(Distance(l, right) + 1, Distance(left, r) + 1), substitution);
      if SwapsAtEnd(left, right) then Min(least, Distance(left[..|left| - 2], right[..|right| - 2]) + 1) else least
  }

  /** One turn of the recurrence. */
  lemma DistanceUnfolds(left: string, right: string)
    ensures left == [] ==> Distance(left, right) == |right|
    ensures right == [] ==> Distance(left, right) == |left|
    ensures left != [] && right != [] ==>
      var l, r := left[..|left| - 1], right[..|right| - 1];
      var substitution := Distance(l, r) + if left[|left| - 1] == right[|right| - 1] then 0 else 1;
      var least := Min(Min(Distance(l, right) + 1, Distance(left, r) + 1), substitution);
      Distance(left, right) ==
        if SwapsAtEnd(left, right) then Min(least, Distance(left[..|left| - 2], right[..|right| - 2]) + 1) else least
  {
    hide Min;
  }

  lemma MinFacts()
    ensures forall a: nat, b: nat {:trigger Min(a, b)} ::
      (Min(a, b) == a || Min(a, b) == b) && Min(a, b) <= a && Min(a, b) <= b
  {
  }

  lemma OneForOne(left: string, right: string, c: char, d: char)
    ensures Distance(left + [c], right + [d]) <= Distance(left, right) + if c == d then 0 else 1
  {
    hide Distance, Min;
    MinFacts();
    DistanceUnfolds(left + [c], right + [d]);
    assert (left + [c])[..|left|] == left && (right + [d])[..|right|] == right;
  }

  lemma OneInserted(left: string, right: string, d: char)
    ensures Distance(left, right + [d]) <= Distance(left, right) + 1
  {
    hide Distance, Min;
    MinFacts();
    DistanceUnfolds(left, right + [d]);
    DistanceUnfolds(left, right);
    assert (right + [d])[..|right|] == right;
  }

  lemma OneDeleted(left: string, right: string, c: char)
    ensures Distance(left + [c], right) <= Distance(left, right) + 1
  {
    hide Distance, Min;
    MinFacts();
    DistanceUnfolds(left + [c], right);
    DistanceUnfolds(left, right);
    assert (left + [c])[..|left|] == left;
  }

  lemma TwoSwapped(left: string, right: string, c: char, d: char)
    ensures Distance(left + [c, d], right + [d, c]) <= Distance(left, right) + 1
  {
    hide Distance, Min;
    MinFacts();
    DistanceUnfolds(left + [c, d], right + [d, c]);
    assert (left + [c, d])[..|left|] == left && (right + [d, c])[..|right|] == right;
  }

  /** One more edit at the end costs no more than itself. */
  lemma OneMoreEdit(left: string, right: string, edit: Edit)
    ensures Distance(left + Before(edit), right + After(edit)) <= Distance(left, right) + if edit.Keep? then 0 else 1
  {
    hide Distance;
    match edit
    case Keep(c) => OneForOne(left, right, c, c);
    case Insert(c) => OneInserted(left, right, c); assert left + Before(edit) == left;
    case Delete(c) => OneDeleted(left, right, c); assert right + After(edit) == right;
    case Substitute(c, d) => OneForOne(left, right, c, d);
    case Swap(c, d) => TwoSwapped(left, right, c, d);
  }

  lemma {:induction false} NoScriptIsCheaper(script: seq<Edit>)
    ensures Distance(Source(script), Target(script)) <= Cost(script)
  {
    if script != [] {
      var front := script[..|script| - 1];
      NoScriptIsCheaper(front);
      OneMoreEdit(Source(front), Target(front), script[|script| - 1]);
    }
  }

  lemma Extended(script: seq<Edit>, edit: Edit, left: string, right: string)
    requires Transforms(script, left, right)
    ensures Transforms(script + [edit], left + Before(edit), right + After(edit))
    ensures Cost(script + [edit]) == Cost(script) + if edit.Keep? then 0 else 1
  {
    assert (script + [edit])[..|script|] == script;
  }

  /** The last edit of a cheapest script: what it leaves costs less by exactly its own cost. */
  lemma LastEdit(left: string, right: string) returns (edit: Edit, l: string, r: string)
    requires left != [] || right != []
    ensures left == l + Before(edit) && right == r + After(edit) && |l| + |r| < |left| + |right|
    ensures Distance(left, right) == Distance(l, r) + if edit.Keep? then 0 else 1
  {
    hide Distance, Min;
    DistanceUnfolds(left, right);
    l, r := left, right;
    if left == [] || right == [] {
      if left == [] {
        r := right[..|right| - 1];
        edit := Insert(right[|right| - 1]);
      } else {
        l := left[..|left| - 1];
        edit := Edit.Delete(left[|left| - 1]);
      }
      DistanceUnfolds(l, r);
    } else {
      MinFacts();
      edit, l, r := LastOfBoth(left, right);
    }
  }

  lemma LastOfBoth(left: string, right: string) returns (edit: Edit, l: string, r: string)
    requires left != [] && right != []
    ensures left == l + Before(edit) && right == r + After(edit) && |l| + |r| < |left| + |right|
    ensures Distance(left, right) == Distance(l, r) + if edit.Keep? then 0 else 1
  {
    hide Distance, Min;
    DistanceUnfolds(left, right);
    MinFacts();
    l, r := left[..|left| - 1], right[..|right| - 1];
    if Distance(left, right) == Distance(left, r) + 1 {
      return Insert(right[|right| - 1]), left, r;
    } else if Distance(left, right) == Distance(l, right) + 1 {
      return Edit.Delete(left[|left| - 1]), l, right;
    } else if
      && SwapsAtEnd(left, right)
      && Distance(left, right) == Distance(left[..|left| - 2], right[..|right| - 2]) + 1
    {
      return Swap(left[|left| - 2], left[|left| - 1]), left[..|left| - 2], right[..|right| - 2];
    }
    edit := if left[|left| - 1] == right[|right| - 1] then Keep(left[|left| - 1])
      else Substitute(left[|left| - 1], right[|right| - 1]);
  }

  lemma {:induction false} SomeScriptAttains(left: string, right: string) returns (script: seq<Edit>)
    ensures Transforms(script, left, right) && Cost(script) == Distance(left, right)
    decreases |left| + |right|
  {
    hide Distance, Transforms, Cost;
    if left == [] && right == [] {
      EmptyScript();
      return [];
    }
    var edit, l, r := LastEdit(left, right);
    var front := SomeScriptAttains(l, r);
    Extended(front, edit, l, r);
    script := front + [edit];
  }

  lemma EmptyScript()
    ensures Transforms([], "", "") && Cost([]) == Distance("", "") == 0
  {
  }

  /** The recurrence is the least cost over every script of the allowed edits. */
  lemma DistanceIsLeastCost(left: string, right: string)
    ensures exists script :: Transforms(script, left, right) && Cost(script) == Distance(left, right)
    ensures forall script :: Transforms(script, left, right) ==> Distance(left, right) <= Cost(script)
  {
    var script := SomeScriptAttains(left, right);
    forall script | Transforms(script, left, right) ensures Distance(left, right) <= Cost(script) {
      NoScriptIsCheaper(script);
    }
  }

  lemma {:induction false} DistanceIsSymmetric(left: string, right: string)
    ensures Distance(left, right) == Distance(right, left)
    decreases |left| + |right|
  {
    hide Distance;
    DistanceUnfolds(left, right);
    DistanceUnfolds(right, left);
    if left != [] && right != [] {
      DistanceIsSymmetric(left[..|left| - 1], right);
      DistanceIsSymmetric(left, right[..|right| - 1]);
      DistanceIsSymmetric(left[..|left| - 1], right[..|right| - 1]);
      if SwapsAtEnd(left, right) {
        DistanceIsSymmetric(left[..|left| - 2], right[..|right| - 2]);
      }
    }
  }

  lemma {:induction false} ZeroIsEquality(left: string, right: string)
    ensures Distance(left, right) == 0 <==> left == right
    decreases |left|
  {
    hide Distance, Min;
    MinFacts();
    DistanceUnfolds(left, right);
    if left != [] && right != [] {
      var l, r := left[..|left| - 1], right[..|right| - 1];
      ZeroIsEquality(l, r);
      assert left == l + [left[|left| - 1]] && right == r + [right[|right| - 1]];
    }
  }

  // ---- the table ----

  /** The distance between the first `i` and the first `j` characters. */
  function Prefix(left: string, right: string, i: nat, j: nat): nat
    requires i <= |left| && j <= |right|
  {
    Distance(left[..i], right[..j])
  }

  lemma PrefixBorder(left: string, right: string, i: nat, j: nat)
    requires i <= |left| && j <= |right| && (i == 0 || j == 0)
    ensures Prefix(left, right, i, j) == i + j
  {
  }

  lemma PrefixUnfolds(left: string, right: string, i: nat, j: nat)
    requires 1 <= i <= |left| && 1 <= j <= |right|
    ensures
      var substitution := Prefix(left, right, i - 1, j - 1) + if left[i - 1] == right[j - 1] then 0 else 1;
      var least := Min(Min(Prefix(left, right, i - 1, j) + 1, Prefix(left, right, i, j - 1) + 1), substitution);
      Prefix(left, right, i, j) ==
        if i > 1 && j > 1 && left[i - 1] == right[j - 2] && left[i - 2] == right[j - 1]
        then Min(least, Prefix(left, right, i - 2, j - 2) + 1) else least
  {
    hide Distance;
    var l, r := left[..i], right[..j];
    DistanceUnfolds(l, r);
    assert l[..i - 1] == left[..i - 1] && r[..j - 1] == right[..j - 1];
    if i > 1 && j > 1 {
      assert l[..i - 2] == left[..i - 2] && r[..j - 2] == right[..j - 2];
    }
  }

  method OptionDistance(left: string, right: string) returns (distance: nat)
    ensures distance == Distance(left, right)
  {
    hide Distance, Prefix;
    var rows := new nat[|left| + 1, |right| + 1];
    for i := 0 to |left| + 1
      invariant forall a :: 0 <= a < i ==> rows[a, 0] == a
    {
      rows[i, 0] := i;
    }
    for j := 0 to |right| + 1
      invariant forall a :: 0 <= a <= |left| ==> rows[a, 0] == a
      invariant forall b :: 0 <= b < j ==> rows[0, b] == b
    {
      rows[0, j] := j;
    }
    forall a, b | 0 <= a <= |left| && 0 <= b <= |right| && (a == 0 || b == 0)
      ensures Prefix(left, right, a, b) == a + b
    {
      PrefixBorder(left, right, a, b);
    }
    for i := 1 to |left| + 1
      invariant forall a, b :: 0 <= a < i && 0 <= b <= |right| ==> rows[a, b] == Prefix(left, right, a, b)
      invariant forall a :: i <= a <= |left| ==> rows[a, 0] == Prefix(left, right, a, 0)
    {
      for j := 1 to |right| + 1
        invariant forall a, b :: 0 <= a < i && 0 <= b <= |right| ==> rows[a, b] == Prefix(left, right, a, b)
        invariant forall a :: i <= a <= |left| ==> rows[a, 0] == Prefix(left, right, a, 0)
        invariant forall b :: 0 <= b < j ==> rows[i, b] == Prefix(left, right, i, b)
      {
        PrefixUnfolds(left, right, i, j);
        var substitution := rows[i - 1, j - 1] + if left[i - 1] == right[j - 1] then 0 else 1;
        rows[i, j] := Min(Min(rows[i - 1, j] + 1, rows[i, j - 1] + 1), substitution);
        if i > 1 && j > 1 && left[i - 1] == right[j - 2] && left[i - 2] == right[j - 1] {
          rows[i, j] := Min(rows[i, j], rows[i - 2, j - 2] + 1);
        }
      }
    }
    WholeIsPrefix(left, right);
    return rows[|left|, |right|];
  }

  lemma WholeIsPrefix(left: string, right: string)
    ensures Prefix(left, right, |left|, |right|) == Distance(left, right)
  {
    hide Distance;
    assert left[..|left|] == left && right[..|right|] == right;
  }

  // ---- the suggestion ----

  predicate NameStart(c: char) {
    'a' <= c <= 'z' || '0' <= c <= '9'
  }

  /** A long option name: a lower-case letter or digit, then up to 63 of those and hyphens. */
  predicate OptionName(s: string) {
    1 <= |s| <= 64 && NameStart(s[0]) && forall i :: 1 <= i < |s| ==> NameStart(s[i]) || s[i] == '-'
  }

  function Tolerance(name: string): nat {
    if |name| <= 4 then 1 else 2
  }

  predicate LexicallyBefore(a: string, b: string) {
    b != [] && (a == [] || a[0] < b[0] || (a[0] == b[0] && LexicallyBefore(a[1..], b[1..])))
  }

  predicate Increasing(names: seq<string>) {
    forall i, j :: 0 <= i < j < |names| ==> LexicallyBefore(names[i], names[j])
  }

  lemma {:induction false} BeforeIsTotal(a: string, b: string)
    ensures LexicallyBefore(a, b) || a == b || LexicallyBefore(b, a)
    ensures !(LexicallyBefore(a, b) && a == b)
  {
    if a != [] && b != [] {
      BeforeIsTotal(a[1..], b[1..]);
      assert a == [a[0]] + a[1..] && b == [b[0]] + b[1..];
    }
  }

  lemma {:induction false} BeforeIsTransitive(a: string, b: string, c: string)
    requires LexicallyBefore(a, b) && LexicallyBefore(b, c)
    ensures LexicallyBefore(a, c)
  {
    if a != [] && a[0] == b[0] && b[0] == c[0] {
      BeforeIsTransitive(a[1..], b[1..], c[1..]);
    }
  }

  /** The distinct candidates in string order. */
  method SortedUnique(candidates: seq<string>) returns (sorted: seq<string>)
    ensures Increasing(sorted)
    ensures forall s :: s in sorted <==> s in candidates
  {
    sorted := [];
    for k := 0 to |candidates|
      invariant Increasing(sorted)
      invariant forall s :: s in sorted <==> s in candidates[..k]
    {
      if candidates[k] !in sorted {
        sorted := Inserted(sorted, candidates[k]);
      }
    }
    assert candidates[..|candidates|] == candidates;
  }

  method Inserted(sorted: seq<string>, name: string) returns (next: seq<string>)
    requires Increasing(sorted) && name !in sorted
    ensures Increasing(next)
    ensures forall s :: s in next <==> s in sorted || s == name
  {
    var k := 0;
    while k < |sorted| && LexicallyBefore(sorted[k], name)
      invariant 0 <= k <= |sorted|
      invariant forall i :: 0 <= i < k ==> LexicallyBefore(sorted[i], name)
    {
      k := k + 1;
    }
    forall i | k <= i < |sorted| ensures LexicallyBefore(name, sorted[i]) {
      BeforeIsTotal(sorted[k], name);
      if i > k {
        BeforeIsTransitive(name, sorted[k], sorted[i]);
      }
    }
    next := sorted[..k] + [name] + sorted[k..];
    assert sorted == sorted[..k] + sorted[k..];
  }

  /** The one admissible candidate strictly nearest to what was typed, near enough, when it is no option itself. */
  predicate Suggests(token: string, candidates: seq<string>, lower: string -> string, best: string) {
    && |token| >= 2 && token[..2] == "--"
    && var name := lower(token[2..]);
       && OptionName(name) && !(OptionName(token[2..]) && token[2..] in candidates)
       && NearestOf(name, candidates, best) && Distance(name, best) <= Tolerance(name)
  }

  /** `lower` is the host's lower-casing; a name already in lower case is its own. */
  method NearestLongOption(token: Option<string>, candidates: Option<seq<string>>, lower: string -> string)
      returns (r: Option<string>)
    requires forall s :: OptionName(s) ==> lower(s) == s
    ensures r.Some? ==>
      token.Some? && candidates.Some? && |r.value| >= 2 && r.value[..2] == "--"
        && Suggests(token.value, candidates.value, lower, r.value[2..])
    ensures r == None && token.Some? && candidates.Some? ==>
      forall best :: !Suggests(token.value, candidates.value, lower, best)
  {
    if token == None || candidates == None || |token.value| < 2 || token.value[..2] != "--" || |candidates.value| == 0 {
      return None;
    }
    var rawName := token.value[2..];
    var name := lower(rawName);
    if !OptionName(name) {
      return None;
    }
    var sorted := SortedUnique(candidates.value);
    var best := StrictlyNearest(name, rawName, sorted, lower);
    hide Distance, OptionName, Increasing, LexicallyBefore, NearestOf;
    forall other ensures NearestOf(name, sorted, other) <==> NearestOf(name, candidates.value, other) {
      NearestIgnoresOrder(name, sorted, candidates.value, other);
    }
    forall other | best.Some? && NearestOf(name, sorted, other) ensures other == best.value {
      NearestIsUnique(name, sorted, best.value, other);
    }
    if best.Some? && Distance(name, best.value) <= Tolerance(name) {
      assert ("--" + best.value)[2..] == best.value;
      return Some("--" + best.value);
    }
    return None;
  }

  /** The loop over the candidates, which stops at an exact match. */
  method StrictlyNearest(name: string, rawName: string, sorted: seq<string>, lower: string -> string)
      returns (r: Option<string>)
    requires Increasing(sorted) && forall s :: OptionName(s) ==> lower(s) == s
    ensures r.Some? ==> !(OptionName(rawName) && rawName in sorted) && NearestOf(name, sorted, r.value)
    ensures r == None ==> (OptionName(rawName) && rawName in sorted) || forall best :: !NearestOf(name, sorted, best)
  {
    Distinct(sorted);
    hide Distance, OptionName, Increasing, LexicallyBefore, Scanned, NearestOf;
    var bestDistance: Option<nat>, best, tied := None, "", false;
    ScannedNone(name, rawName);
    for k := 0 to |sorted|
      invariant Scanned(name, rawName, sorted[..k], bestDistance, best, tied)
    {
      assert sorted[..k + 1] == sorted[..k] + [sorted[k]];
      if !OptionName(sorted[k]) {
        ScannedOther(name, rawName, sorted[..k], bestDistance, best, tied, sorted[k]);
        continue;
      }
      if sorted[k] == rawName {
        return None;
      }
      var distance := OptionDistance(name, lower(sorted[k]));
      ScannedName(name, rawName, sorted[..k], bestDistance, best, tied, sorted[k]);
      if bestDistance == None || distance < bestDistance.value {
        bestDistance, best, tied := Some(distance), sorted[k], false;
      } else if distance == bestDistance.value {
        tied := true;
      }
    }
    assert sorted[..|sorted|] == sorted;
    ScannedAll(name, rawName, sorted, bestDistance, best, tied);
    r := if bestDistance.Some? && !tied then Some(best) else None;
  }

  /** The best of the names seen so far, and whether another name is as near. */
  predicate Scanned(name: string, rawName: string, seen: seq<string>, bestDistance: Option<nat>, best: string,
                    tied: bool) {
    && !(OptionName(rawName) && rawName in seen)
    && (bestDistance == None ==> forall s :: s in seen ==> !OptionName(s))
    && (bestDistance.Some? ==>
          && best in seen && OptionName(best) && bestDistance.value == Distance(name, best)
          && (forall s :: s in seen && OptionName(s) ==> bestDistance.value <= Distance(name, s))
          && (tied <==> exists s :: s in seen && OptionName(s) && s != best && Distance(name, s) == bestDistance.value))
  }

  lemma ScannedNone(name: string, rawName: string)
    ensures Scanned(name, rawName, [], None, "", false)
  {
  }

  lemma ScannedOther(name: string, rawName: string, seen: seq<string>, bestDistance: Option<nat>, best: string,
                     tied: bool, next: string)
    requires Scanned(name, rawName, seen, bestDistance, best, tied) && !OptionName(next)
    ensures Scanned(name, rawName, seen + [next], bestDistance, best, tied)
  {
    hide Distance, OptionName;
    assert forall s :: s in seen + [next] <==> s in seen || s == next;
  }

  lemma ScannedName(name: string, rawName: string, seen: seq<string>, bestDistance: Option<nat>, best: string,
                    tied: bool, next: string)
    requires Scanned(name, rawName, seen, bestDistance, best, tied) && OptionName(next) && next != rawName
    requires next !in seen
    ensures
      var distance := Distance(name, next);
      if bestDistance == None || distance < bestDistance.value
        then Scanned(name, rawName, seen + [next], Some(distance), next, false)
      else Scanned(name, rawName, seen + [next], bestDistance, best, tied || distance == bestDistance.value)
  {
    hide Distance, OptionName;
    assert forall s :: s in seen + [next] <==> s in seen || s == next;
  }

  lemma ScannedAll(name: string, rawName: string, seen: seq<string>, bestDistance: Option<nat>, best: string,
                   tied: bool)
    requires Scanned(name, rawName, seen, bestDistance, best, tied)
    ensures !(OptionName(rawName) && rawName in seen)
    ensures
      if bestDistance.Some? && !tied then NearestOf(name, seen, best) else forall other :: !NearestOf(name, seen, other)
  {
    hide Distance, OptionName;
  }

  predicate NearestOf(name: string, candidates: seq<string>, best: string) {
    && OptionName(best) && best in candidates
    && forall other :: other in candidates && OptionName(other) && other != best ==>
         Distance(name, best) < Distance(name, other)
  }

  lemma NearestIgnoresOrder(name: string, first: seq<string>, second: seq<string>, best: string)
    requires forall s :: s in first <==> s in second
    ensures NearestOf(name, first, best) <==> NearestOf(name, second, best)
  {
    hide Distance, OptionName;
  }

  lemma NearestIsUnique(name: string, candidates: seq<string>, best: string, other: string)
    requires NearestOf(name, candidates, best) && NearestOf(name, candidates, other)
    ensures best == other
  {
    hide Distance, OptionName;
  }

  lemma Distinct(sorted: seq<string>)
    requires Increasing(sorted)
    ensures forall i, j :: 0 <= i < j < |sorted| ==> sorted[i] != sorted[j]
  {
    forall i, j | 0 <= i < j < |sorted| ensures sorted[i] != sorted[j] {
      BeforeIsTotal(sorted[i], sorted[j]);
    }
  }
}
