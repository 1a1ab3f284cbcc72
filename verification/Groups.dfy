/** Rollout rows, the groups of one prompt's rollouts, and the group filter of dynamic sampling. */
module Groups {
  import opened Reals
  import opened Sequences

  type Uid = nat

  /** One rollout: its prompt's uid, the prompt, the filter metric and the response length. */
  datatype Row = Row(uid: Uid, prompt: nat, metric: real, length: nat)

  /** `groups` are the rollouts of different prompts, `n` of each. */
  ghost predicate AreGroups(groups: seq<seq<Row>>, n: nat) {
    n > 0 &&
    (forall k :: 0 <= k < |groups| ==> IsGroup(groups[k], n)) &&
    (forall k, l :: 0 <= k < l < |groups| ==> groups[k][0].uid != groups[l][0].uid)
  }

  ghost predicate IsGroup(group: seq<Row>, n: nat) {
    n > 0 && |group| == n && forall j :: 0 <= j < n ==> group[j].uid == group[0].uid && group[j].prompt == group[0].prompt
  }

  // ----- the metric of a group -----

  /** The metric values of `uid`, in row order. */
  function ValuesOf(rows: seq<Row>, uid: Uid): seq<real> {
    if rows == [] then []
    else
      var last := |rows| - 1;
      ValuesOf(rows[..last], uid) + if rows[last].uid == uid then [rows[last].metric] else []
  }

  function Mean(vals: seq<real>): real
    requires vals != []
  {
    Sum(vals) / |vals| as real
  }

  function Times(x: real, y: real): real {
    x * y
  }

  function Square(x: real): real {
    Times(x, x)
  }

  function Squares(vals: seq<real>, mean: real): seq<real> {
    seq(|vals|, i requires 0 <= i < |vals| => Square(vals[i] - mean))
  }

  /** `np.std` is positive exactly when this is. */
  function Variance(vals: seq<real>): real
    requires vals != []
  {
    Sum(Squares(vals, Mean(vals))) / |vals| as real
  }

  lemma {:induction false} SumOfNonNegatives(s: seq<real>)
    requires forall i :: 0 <= i < |s| ==> s[i] >= 0.0
    ensures Sum(s) >= 0.0
    ensures Sum(s) > 0.0 <==> exists i :: 0 <= i < |s| && s[i] > 0.0
  {
    if s != [] {
      var n := |s| - 1;
      SumOfNonNegatives(s[..n]);
      if i :| 0 <= i < |s| && s[i] > 0.0 {
        assert i < n ==> s[..n][i] > 0.0;
      }
      if Sum(s) > 0.0 && s[n] == 0.0 {
        var i :| 0 <= i < |s[..n]| && s[..n][i] > 0.0;
        assert s[i] > 0.0;
      }
    }
  }

  lemma {:induction false} SumOfEquals(s: seq<real>, x: real)
    requires forall i :: 0 <= i < |s| ==> s[i] == x
    ensures Sum(s) == x * |s| as real
  {
    if s != [] {
      SumOfEquals(s[..|s| - 1], x);
    }
  }

  lemma TimesSign(x: real, y: real)
    requires x > 0.0 && y > 0.0
    ensures Times(x, y) > 0.0
  {
  }

  lemma SquareOfNegation(x: real)
    ensures Square(x) == Square(-x)
  {
  }

  lemma SquareSign(x: real)
    ensures Square(x) >= 0.0 && (Square(x) > 0.0 <==> x != 0.0)
  {
    SquareOfNegation(x);
    if x > 0.0 {
      TimesSign(x, x);
    } else if x < 0.0 {
      TimesSign(-x, -x);
    } else {
      assert x == 0.0 && Square(x) == 0.0;
    }
  }

  lemma VarianceSign(vals: seq<real>)
    requires vals != []
    ensures Variance(vals) > 0.0 <==> exists i :: 0 <= i < |vals| && vals[i] != Mean(vals)
  {
    var mean := Mean(vals);
    var squares := Squares(vals, mean);
    forall i | 0 <= i < |vals| ensures squares[i] >= 0.0 && (squares[i] > 0.0 <==> vals[i] != mean) {
      SquareSign(vals[i] - mean);
    }
    SumOfNonNegatives(squares);
    QuotientSign(Sum(squares), |vals| as real);
    if i :| 0 <= i < |vals| && vals[i] != mean {
      assert squares[i] > 0.0;
    }
  }

  /** A positive standard deviation is a metric that is not constant. */
  lemma VarianceSeesDifferences(vals: seq<real>)
    requires vals != []
    ensures Variance(vals) > 0.0 <==> Varies(vals)
  {
    VarianceSign(vals);
    if forall i :: 0 <= i < |vals| ==> vals[i] == vals[0] {
      SumOfEquals(vals, vals[0]);
      QuotientIs(Sum(vals), |vals| as real, vals[0]);
    } else {
      var i :| 0 <= i < |vals| && vals[i] != vals[0];
      var k := if vals[0] != Mean(vals) then 0 else i;
      assert vals[k] != Mean(vals);
    }
  }

  /** The metric takes two values in the group. */
  predicate Varies(vals: seq<real>) {
    exists i :: 0 <= i < |vals| && vals[i] != vals[0]
  }

  /** A group worth training on: its metric varies, or it is a single rollout. */
  predicate Informative(vals: seq<real>) {
    |vals| == 1 || Varies(vals)
  }

  /** The filter's test on one group: a positive standard deviation, or a single value. */
  method TestGroup(vals: seq<real>) returns (keep: bool)
    requires vals != []
    ensures keep == Informative(vals)
    ensures keep <==> |vals| == 1 || exists i, j :: 0 <= i < j < |vals| && vals[i] != vals[j]
  {
    VarianceSeesDifferences(vals);
    if i, j :| 0 <= i < j < |vals| && vals[i] != vals[j] {
      assert vals[i] != vals[0] || vals[j] != vals[0];
    }
    keep := Variance(vals) > 0.0 || |vals| == 1;
  }

  // ----- the filter -----

  function KeepRows(rows: seq<Row>, all: seq<Row>): seq<Row> {
    if rows == [] then []
    else
      var last := |rows| - 1;
      KeepRows(rows[..last], all) + KeepRow(rows[last], all)
  }

  function KeepRow(row: Row, all: seq<Row>): seq<Row> {
    if Informative(ValuesOf(all, row.uid)) then [row] else []
  }

  /** Uids in order of first occurrence. */
  function Uids(rows: seq<Row>): seq<Uid> {
    if rows == [] then []
    else
      var last := |rows| - 1;
      var before := Uids(rows[..last]);
      if rows[last].uid in before then before else before + [rows[last].uid]
  }

  function KeepUids(uids: seq<Uid>, all: seq<Row>): seq<Uid> {
    if uids == [] then []
    else
      var last := |uids| - 1;
      KeepUids(uids[..last], all) + if Informative(ValuesOf(all, uids[last])) then [uids[last]] else []
  }

  lemma {:induction false} UidsCover(rows: seq<Row>)
    ensures forall i :: 0 <= i < |rows| ==> rows[i].uid in Uids(rows)
    ensures forall uid :: uid in Uids(rows) <==> ValuesOf(rows, uid) != []
  {
    if rows != [] {
      var last := |rows| - 1;
      UidsCover(rows[..last]);
      forall i | 0 <= i < |rows| ensures rows[i].uid in Uids(rows) {
        if i < last { assert rows[..last][i].uid in Uids(rows[..last]); }
      }
    }
  }

  lemma {:induction false} KeepUidsContains(uids: seq<Uid>, all: seq<Row>, uid: Uid)
    ensures uid in KeepUids(uids, all) <==> uid in uids && Informative(ValuesOf(all, uid))
  {
    if uids != [] {
      KeepUidsContains(uids[..|uids| - 1], all, uid);
      assert uids == uids[..|uids| - 1] + [uids[|uids| - 1]];
    }
  }

  // ----- the filter in terms of the rows -----

  /** Two rows of the uid differ in the metric, or there is only one. */
  ghost predicate IsWorthTraining(rows: seq<Row>, uid: Uid) {
    (exists i, j :: 0 <= i < j < |rows| && rows[i].uid == uid == rows[j].uid && rows[i].metric != rows[j].metric) ||
    (exists i :: 0 <= i < |rows| && rows[i].uid == uid && IsOnly(rows, i))
  }

  ghost predicate IsOnly(rows: seq<Row>, i: nat)
    requires i < |rows|
  {
    forall j :: 0 <= j < |rows| && rows[j].uid == rows[i].uid ==> j == i
  }

  /** Positions of the rows of `uid` among the first `count`, in order, and their metrics. */
  ghost predicate AreRowsOf(p: seq<nat>, vals: seq<real>, rows: seq<Row>, count: nat, uid: Uid)
    requires count <= |rows|
  {
    Ascends(p) && (forall j: nat :: j in p <==> j < count && rows[j].uid == uid) &&
    |vals| == |p| && forall x :: 0 <= x < |p| && p[x] < |rows| ==> vals[x] == rows[p[x]].metric
  }

  lemma {:induction false} RowsOfUid(rows: seq<Row>, count: nat, uid: Uid) returns (p: seq<nat>)
    requires count <= |rows|
    ensures AreRowsOf(p, ValuesOf(rows[..count], uid), rows, count, uid)
  {
    if count == 0 {
      p := [];
    } else {
      var last := count - 1;
      var before := RowsOfUid(rows, last, uid);
      assert rows[..count][..last] == rows[..last];
      p := before;
      if rows[last].uid == uid {
        p := before + [last];
        AscendOneMore(before, last);
      }
    }
  }

  lemma VariesByRows(rows: seq<Row>, uid: Uid, p: seq<nat>, vals: seq<real>)
    requires AreRowsOf(p, vals, rows, |rows|, uid) && vals != []
    ensures Varies(vals) <==>
            exists i, j :: 0 <= i < j < |rows| && rows[i].uid == uid == rows[j].uid && rows[i].metric != rows[j].metric
  {
    if x :| 0 <= x < |vals| && vals[x] != vals[0] {
      assert p[0] in p && p[x] in p && p[0] < p[x];
    }
    if i, j :| 0 <= i < j < |rows| && rows[i].uid == uid == rows[j].uid && rows[i].metric != rows[j].metric {
      assert i in p && j in p;
      var x :| 0 <= x < |p| && p[x] == i;
      var y :| 0 <= y < |p| && p[y] == j;
      assert vals[x] != vals[0] || vals[y] != vals[0];
    }
  }

  lemma SingleByRows(rows: seq<Row>, uid: Uid, p: seq<nat>, vals: seq<real>)
    requires AreRowsOf(p, vals, rows, |rows|, uid)
    ensures |p| == 1 <==> exists i :: 0 <= i < |rows| && rows[i].uid == uid && IsOnly(rows, i)
  {
    if |p| == 1 {
      assert p[0] in p;
      assert IsOnly(rows, p[0]);
    } else if i :| 0 <= i < |rows| && rows[i].uid == uid && IsOnly(rows, i) {
      assert i in p;
      assert p[0] in p && p[1] in p && p[0] < p[1];
    }
  }

  lemma InformativeByRows(rows: seq<Row>, i: nat)
    requires i < |rows|
    ensures Informative(ValuesOf(rows, rows[i].uid)) <==> IsWorthTraining(rows, rows[i].uid)
  {
    var uid := rows[i].uid;
    assert rows[..|rows|] == rows;
    var p := RowsOfUid(rows, |rows|, uid);
    assert i in p;
    VariesByRows(rows, uid, p, ValuesOf(rows, uid));
    SingleByRows(rows, uid, p, ValuesOf(rows, uid));
  }

  /** `kept` are the rows of the first `count` at the ascending positions `p`: those of the uids worth training on. */
  ghost predicate KeepsWorthy(rows: seq<Row>, count: nat, kept: seq<Row>, p: seq<nat>)
    requires count <= |rows|
  {
    |p| == |kept| && Ascends(p) && (forall x :: 0 <= x < |p| ==> p[x] < |rows| && kept[x] == rows[p[x]]) &&
    forall j: nat :: j in p <==> j < count && IsWorthTraining(rows, rows[j].uid)
  }

  lemma {:induction false} KeptPositions(rows: seq<Row>, count: nat) returns (p: seq<nat>)
    requires count <= |rows|
    ensures KeepsWorthy(rows, count, KeepRows(rows[..count], rows), p)
  {
    if count == 0 {
      p := [];
    } else {
      var last := count - 1;
      var before := KeptPositions(rows, last);
      assert rows[..count][..last] == rows[..last];
      InformativeByRows(rows, last);
      p := before;
      if Informative(ValuesOf(rows, rows[last].uid)) {
        p := before + [last];
        AscendOneMore(before, last);
      }
    }
  }

  ghost function WorthyUids(rows: seq<Row>): set<Uid> {
    set i | 0 <= i < |rows| && IsWorthTraining(rows, rows[i].uid) :: rows[i].uid
  }

  lemma {:induction false} UidsAreDistinct(rows: seq<Row>)
    ensures Distinct(Uids(rows))
  {
    if rows != [] {
      UidsAreDistinct(rows[..|rows| - 1]);
    }
  }

  lemma {:induction false} KeepUidsAreDistinct(uids: seq<Uid>, all: seq<Row>)
    requires Distinct(uids)
    ensures Distinct(KeepUids(uids, all))
  {
    if uids != [] {
      var last := |uids| - 1;
      KeepUidsAreDistinct(uids[..last], all);
      var before := KeepUids(uids[..last], all);
      forall x | 0 <= x < |before| ensures before[x] != uids[last] {
        assert before[x] in before;
        KeepUidsContains(uids[..last], all, before[x]);
      }
    }
  }

  lemma {:induction false} UidsAreOfRows(rows: seq<Row>, uid: Uid)
    ensures uid in Uids(rows) <==> exists j :: 0 <= j < |rows| && rows[j].uid == uid
  {
    if rows != [] {
      var last := |rows| - 1;
      UidsAreOfRows(rows[..last], uid);
      if j :| 0 <= j < last && rows[..last][j].uid == uid {
        assert rows[j].uid == uid;
      }
      if j :| 0 <= j < |rows| && rows[j].uid == uid {
        assert j < last ==> rows[..last][j].uid == uid;
      }
      assert rows[last].uid in Uids(rows);
    }
  }

  lemma KeptUidsCount(rows: seq<Row>)
    ensures |KeepUids(Uids(rows), rows)| == |WorthyUids(rows)|
  {
    var kept := KeepUids(Uids(rows), rows);
    UidsAreDistinct(rows);
    KeepUidsAreDistinct(Uids(rows), rows);
    forall uid ensures uid in kept <==> uid in WorthyUids(rows) {
      KeepUidsContains(Uids(rows), rows, uid);
      UidsAreOfRows(rows, uid);
      if uid in Uids(rows) {
        var j :| 0 <= j < |rows| && rows[j].uid == uid;
        InformativeByRows(rows, j);
      }
    }
    ListedOnce(kept, WorthyUids(rows));
  }

  /** What is kept of a batch: the rows of the uids worth training on, in order, and the number of these uids. */
  lemma FilteredAreWorthy(rows: seq<Row>) returns (p: seq<nat>)
    ensures KeepsWorthy(rows, |rows|, KeepRows(rows, rows), p)
    ensures |KeepUids(Uids(rows), rows)| == |WorthyUids(rows)|
  {
    p := KeptPositions(rows, |rows|);
    assert rows[..|rows|] == rows;
    KeptUidsCount(rows);
  }

  /** The filter on one generated batch: metric values per uid, the uids to keep, their rows. */
  method FilterGroups(rows: seq<Row>) returns (kept: seq<Row>, keptPrompts: nat)
    ensures kept == KeepRows(rows, rows)
    ensures keptPrompts == |KeepUids(Uids(rows), rows)|
  {
    var order, vals := CollectValues(rows);
    ValuesAreThere(rows, order, vals);
    var keptUids := SelectUids(rows, order, vals);
    keptPrompts := |keptUids|;
    KeptUidsAreInformative(rows, keptUids);
    kept := SelectRows(rows, keptUids);
  }

  lemma ValuesAreThere(rows: seq<Row>, order: seq<Uid>, vals: map<Uid, seq<real>>)
    requires order == Uids(rows) && (forall uid :: uid in vals <==> uid in order)
    requires forall uid :: uid in vals ==> vals[uid] == ValuesOf(rows, uid)
    ensures forall k :: 0 <= k < |order| ==> HasValues(rows, vals, order[k])
  {
    UidsCover(rows);
    forall k | 0 <= k < |order| ensures HasValues(rows, vals, order[k]) {
      assert order[k] in order;
    }
  }

  predicate HasValues(rows: seq<Row>, vals: map<Uid, seq<real>>, uid: Uid) {
    uid in vals && vals[uid] == ValuesOf(rows, uid) && vals[uid] != []
  }

  lemma KeptUidsAreInformative(rows: seq<Row>, keptUids: seq<Uid>)
    requires keptUids == KeepUids(Uids(rows), rows)
    ensures forall i :: 0 <= i < |rows| ==> (rows[i].uid in keptUids <==> Informative(ValuesOf(rows, rows[i].uid)))
  {
    UidsCover(rows);
    forall i | 0 <= i < |rows| ensures rows[i].uid in keptUids <==> Informative(ValuesOf(rows, rows[i].uid)) {
      KeepUidsContains(Uids(rows), rows, rows[i].uid);
    }
  }

  method SelectRows(rows: seq<Row>, keptUids: seq<Uid>) returns (kept: seq<Row>)
    requires forall i :: 0 <= i < |rows| ==> (rows[i].uid in keptUids <==> Informative(ValuesOf(rows, rows[i].uid)))
    ensures kept == KeepRows(rows, rows)
  {
    kept := [];
    for i := 0 to |rows|
      invariant kept == KeepRows(rows[..i], rows)
    {
      assert rows[..i + 1][..i] == rows[..i];
      if rows[i].uid in keptUids {
        kept := kept + [rows[i]];
      }
    }
    assert rows[..|rows|] == rows;
  }

  method CollectValues(rows: seq<Row>) returns (order: seq<Uid>, vals: map<Uid, seq<real>>)
    ensures order == Uids(rows)
    ensures forall uid :: uid in vals <==> uid in order
    ensures forall uid :: uid in vals ==> vals[uid] == ValuesOf(rows, uid)
  {
    order, vals := [], map[];
    for i := 0 to |rows|
      invariant order == Uids(rows[..i])
      invariant forall uid :: uid in vals <==> uid in order
      invariant forall uid :: uid in vals ==> vals[uid] == ValuesOf(rows[..i], uid)
    {
      assert rows[..i + 1][..i] == rows[..i];
      UidsCover(rows[..i]);
      var uid := rows[i].uid;
      if uid !in vals {
        order := order + [uid];
        vals := vals[uid := []];
      }
      vals := vals[uid := vals[uid] + [rows[i].metric]];
    }
    assert rows[..|rows|] == rows;
  }

  method SelectUids(ghost rows: seq<Row>, order: seq<Uid>, vals: map<Uid, seq<real>>) returns (keptUids: seq<Uid>)
    requires forall k :: 0 <= k < |order| ==> HasValues(rows, vals, order[k])
    ensures keptUids == KeepUids(order, rows)
  {
    keptUids := [];
    for i := 0 to |order|
      invariant keptUids == KeepUids(order[..i], rows)
    {
      assert order[..i + 1] == order[..i] + [order[i]];
      KeepUidsAppend(order[..i], order[i], rows);
      assert HasValues(rows, vals, order[i]);
      var keep := TestGroup(vals[order[i]]);
      if keep {
        keptUids := keptUids + [order[i]];
      }
    }
    assert order[..|order|] == order;
  }

  lemma KeepUidsAppend(uids: seq<Uid>, uid: Uid, all: seq<Row>)
    ensures KeepUids(uids + [uid], all) == if Informative(ValuesOf(all, uid)) then KeepUids(uids, all) + [uid] else KeepUids(uids, all)
  {
    assert (uids + [uid])[..|uids|] == uids;
  }

  // ----- the filter on whole groups -----

  function Metrics(group: seq<Row>): seq<real> {
    seq(|group|, j requires 0 <= j < |group| => group[j].metric)
  }

  function KeepGroups(groups: seq<seq<Row>>): seq<seq<Row>> {
    if groups == [] then []
    else
      var last := |groups| - 1;
      KeepGroups(groups[..last]) + if Informative(Metrics(groups[last])) then [groups[last]] else []
  }

  lemma {:induction false} ValuesConcat(a: seq<Row>, b: seq<Row>, uid: Uid)
    ensures ValuesOf(a + b, uid) == ValuesOf(a, uid) + ValuesOf(b, uid)
    decreases |b|
  {
    if b == [] {
      assert a + b == a;
    } else {
      var last := |b| - 1;
      assert (a + b)[..|a| + last] == a + b[..last];
      ValuesConcat(a, b[..last], uid);
    }
  }

  lemma {:induction false} ValuesOfGroup(group: seq<Row>, uid: Uid, own: Uid)
    requires forall j :: 0 <= j < |group| ==> group[j].uid == own
    ensures ValuesOf(group, uid) == if uid == own then Metrics(group) else []
  {
    if group != [] {
      ValuesOfGroup(group[..|group| - 1], uid, own);
    }
  }

  lemma GroupAddsValues(rows: seq<Row>, group: seq<Row>, n: nat, uid: Uid)
    requires IsGroup(group, n)
    ensures ValuesOf(rows + group, uid) == if uid == group[0].uid then ValuesOf(rows, uid) + Metrics(group) else ValuesOf(rows, uid)
  {
    ValuesConcat(rows, group, uid);
    ValuesOfGroup(group, uid, group[0].uid);
  }

  lemma {:induction false} NoValuesElsewhere(groups: seq<seq<Row>>, n: nat, uid: Uid)
    requires AreOthers(groups, n, uid)
    ensures ValuesOf(Flatten(groups), uid) == []
  {
    if groups != [] {
      var last := |groups| - 1;
      NoValuesElsewhere(groups[..last], n, uid);
      GroupAddsValues(Flatten(groups[..last]), groups[last], n, uid);
    }
  }

  lemma FlatAround(before: seq<seq<Row>>, group: seq<Row>, after: seq<seq<Row>>)
    ensures Flatten(before + ([group] + after)) == Flatten(before) + (group + Flatten(after))
  {
    FlattenConcat(before, [group] + after);
    FlattenConcat([group], after);
    FlattenSingle(group);
  }

  lemma ValuesAround(before: seq<Row>, group: seq<Row>, after: seq<Row>, n: nat, uid: Uid)
    requires IsGroup(group, n) && uid == group[0].uid && ValuesOf(before, uid) == [] && ValuesOf(after, uid) == []
    ensures ValuesOf(before + (group + after), uid) == Metrics(group)
  {
    ValuesConcat(before, group + after, uid);
    ValuesConcat(group, after, uid);
    ValuesOfGroup(group, uid, uid);
  }

  /** Groups of another uid. */
  ghost predicate AreOthers(groups: seq<seq<Row>>, n: nat, uid: Uid) {
    forall k :: 0 <= k < |groups| ==> IsGroup(groups[k], n) && groups[k][0].uid != uid
  }

  lemma GroupsBefore(groups: seq<seq<Row>>, n: nat, k: nat)
    requires AreGroups(groups, n) && k < |groups|
    ensures IsGroup(groups[k], n) && AreOthers(groups[..k], n, groups[k][0].uid)
  {
  }

  lemma GroupsAfter(groups: seq<seq<Row>>, n: nat, k: nat)
    requires AreGroups(groups, n) && k < |groups|
    ensures IsGroup(groups[k], n) && AreOthers(groups[k + 1..], n, groups[k][0].uid)
  {
  }

  lemma ValuesAmongOthers(before: seq<seq<Row>>, group: seq<Row>, after: seq<seq<Row>>, n: nat, uid: Uid)
    requires IsGroup(group, n) && uid == group[0].uid && AreOthers(before, n, uid) && AreOthers(after, n, uid)
    ensures ValuesOf(Flatten(before + ([group] + after)), uid) == Metrics(group)
  {
    FlatAround(before, group, after);
    NoValuesElsewhere(before, n, uid);
    NoValuesElsewhere(after, n, uid);
    ValuesAround(Flatten(before), group, Flatten(after), n, uid);
  }

  lemma SplitAt<T>(s: seq<T>, k: nat)
    requires k < |s|
    ensures s == s[..k] + ([s[k]] + s[k + 1..])
  {
  }

  /** A uid finds exactly its own group. */
  lemma ValuesOfGroups(groups: seq<seq<Row>>, n: nat, k: nat)
    requires AreGroups(groups, n) && k < |groups|
    ensures ValuesOf(Flatten(groups), groups[k][0].uid) == Metrics(groups[k])
  {
    GroupsBefore(groups, n, k);
    GroupsAfter(groups, n, k);
    SplitAt(groups, k);
    ValuesAmongOthers(groups[..k], groups[k], groups[k + 1..], n, groups[k][0].uid);
  }

  lemma ConcatLast<T>(a: seq<T>, b: seq<T>)
    requires b != []
    ensures a + b == (a + b[..|b| - 1]) + [b[|b| - 1]] && b == b[..|b| - 1] + [b[|b| - 1]]
  {
  }

  lemma KeepRowsAppend(rows: seq<Row>, row: Row, all: seq<Row>)
    ensures KeepRows(rows + [row], all) == KeepRows(rows, all) + KeepRow(row, all)
  {
    assert (rows + [row])[..|rows|] == rows;
  }

  lemma {:induction false} KeepRowsConcat(a: seq<Row>, b: seq<Row>, all: seq<Row>)
    ensures KeepRows(a + b, all) == KeepRows(a, all) + KeepRows(b, all)
    decreases |b|
  {
    if b == [] {
      assert a + b == a;
    } else {
      var last := |b| - 1;
      KeepRowsConcat(a, b[..last], all);
      ConcatLast(a, b);
      KeepRowsAppend(a + b[..last], b[last], all);
      KeepRowsAppend(b[..last], b[last], all);
    }
  }

  lemma {:induction false} KeepRowsOfGroup(group: seq<Row>, all: seq<Row>, own: Uid)
    requires forall j :: 0 <= j < |group| ==> group[j].uid == own
    ensures KeepRows(group, all) == if Informative(ValuesOf(all, own)) then group else []
  {
    if group != [] {
      KeepRowsOfGroup(group[..|group| - 1], all, own);
    }
  }

  lemma FlatAppend(groups: seq<seq<Row>>, group: seq<Row>)
    ensures Flatten(groups + [group]) == Flatten(groups) + group
  {
    assert (groups + [group])[..|groups|] == groups;
  }

  /** What the filter leaves of a group: all of it or nothing. */
  function KeptPart(group: seq<Row>): seq<Row> {
    if Informative(Metrics(group)) then group else []
  }

  lemma RowsOfOneMoreGroup(before: seq<seq<Row>>, group: seq<Row>, all: seq<Row>)
    requires group != [] && forall j :: 0 <= j < |group| ==> group[j].uid == group[0].uid
    requires ValuesOf(all, group[0].uid) == Metrics(group)
    ensures KeepRows(Flatten(before + [group]), all) == KeepRows(Flatten(before), all) + KeptPart(group)
  {
    FlatAppend(before, group);
    KeepRowsConcat(Flatten(before), group, all);
    KeepRowsOfGroup(group, all, group[0].uid);
  }

  lemma FlatOfOneMoreGroup(before: seq<seq<Row>>, group: seq<Row>)
    ensures Flatten(KeepGroups(before + [group])) == Flatten(KeepGroups(before)) + KeptPart(group)
  {
    assert (before + [group])[..|before|] == before;
    var kept := KeepGroups(before);
    if Informative(Metrics(group)) {
      assert KeepGroups(before + [group]) == kept + [group];
      FlatAppend(kept, group);
    } else {
      assert KeepGroups(before + [group]) == kept + [];
      assert kept + [] == kept;
    }
  }

  /** Among all rows, the uid of the group finds the group's own values. */
  ghost predicate FindsItself(group: seq<Row>, all: seq<Row>) {
    group != [] && (forall j :: 0 <= j < |group| ==> group[j].uid == group[0].uid) &&
    ValuesOf(all, group[0].uid) == Metrics(group)
  }

  ghost predicate FindThemselves(groups: seq<seq<Row>>, all: seq<Row>) {
    forall k :: 0 <= k < |groups| ==> FindsItself(groups[k], all)
  }

  lemma GroupsFindThemselves(groups: seq<seq<Row>>, n: nat)
    requires AreGroups(groups, n)
    ensures FindThemselves(groups, Flatten(groups))
  {
    forall k | 0 <= k < |groups| ensures FindsItself(groups[k], Flatten(groups)) {
      GroupsBefore(groups, n, k);
      ValuesOfGroups(groups, n, k);
    }
  }

  lemma FindThemselvesBefore(groups: seq<seq<Row>>, all: seq<Row>)
    requires FindThemselves(groups, all) && groups != []
    ensures FindThemselves(groups[..|groups| - 1], all) && FindsItself(groups[|groups| - 1], all)
    ensures groups == groups[..|groups| - 1] + [groups[|groups| - 1]]
  {
  }

  lemma FilterKeepsOneMore(before: seq<seq<Row>>, group: seq<Row>, all: seq<Row>)
    requires KeepRows(Flatten(before), all) == Flatten(KeepGroups(before)) && FindsItself(group, all)
    ensures KeepRows(Flatten(before + [group]), all) == Flatten(KeepGroups(before + [group]))
  {
    RowsOfOneMoreGroup(before, group, all);
    FlatOfOneMoreGroup(before, group);
  }

  /** The row filter keeps whole groups, in order: the informative ones. */
  lemma {:induction false} FilterKeepsWholeGroups(groups: seq<seq<Row>>, all: seq<Row>)
    requires FindThemselves(groups, all)
    ensures KeepRows(Flatten(groups), all) == Flatten(KeepGroups(groups))
  {
    if groups != [] {
      FindThemselvesBefore(groups, all);
      FilterKeepsWholeGroups(groups[..|groups| - 1], all);
      FilterKeepsOneMore(groups[..|groups| - 1], groups[|groups| - 1], all);
    }
  }

  function FirstUids(groups: seq<seq<Row>>, n: nat): seq<Uid>
    requires n > 0 && forall k :: 0 <= k < |groups| ==> |groups[k]| == n
  {
    seq(|groups|, k requires 0 <= k < |groups| => groups[k][0].uid)
  }

  lemma {:induction false} UidsConcatGroup(rows: seq<Row>, group: seq<Row>, own: Uid)
    requires group != [] && own !in Uids(rows) && forall j :: 0 <= j < |group| ==> group[j].uid == own
    ensures Uids(rows + group) == Uids(rows) + [own]
    decreases |group|
  {
    var last := |group| - 1;
    assert (rows + group)[..|rows| + last] == rows + group[..last];
    if last > 0 {
      UidsConcatGroup(rows, group[..last], own);
    } else {
      assert rows + group[..0] == rows;
    }
  }

  lemma {:induction false} UidsOfGroups(groups: seq<seq<Row>>, n: nat)
    requires AreGroups(groups, n)
    ensures Uids(Flatten(groups)) == FirstUids(groups, n)
  {
    if groups != [] {
      var last := |groups| - 1;
      UidsOfGroups(groups[..last], n);
      assert IsGroup(groups[last], n);
      assert FirstUids(groups, n) == FirstUids(groups[..last], n) + [groups[last][0].uid];
      UidsConcatGroup(Flatten(groups[..last]), groups[last], groups[last][0].uid);
    }
  }

  lemma {:induction false} KeptUidCount(groups: seq<seq<Row>>, n: nat, all: seq<Row>)
    requires n > 0 && FindThemselves(groups, all) && forall k :: 0 <= k < |groups| ==> |groups[k]| == n
    ensures |KeepUids(FirstUids(groups, n), all)| == |KeepGroups(groups)|
  {
    if groups != [] {
      var last := |groups| - 1;
      KeptUidCount(groups[..last], n, all);
      assert FindsItself(groups[last], all);
      assert groups == groups[..last] + [groups[last]];
      assert FirstUids(groups, n) == FirstUids(groups[..last], n) + [groups[last][0].uid];
      KeepUidsAppend(FirstUids(groups[..last], n), groups[last][0].uid, all);
      KeepGroupsAppend(groups[..last], groups[last]);
    }
  }

  lemma KeepGroupsAppend(before: seq<seq<Row>>, group: seq<Row>)
    ensures |KeepGroups(before + [group])| == |KeepGroups(before)| + if Informative(Metrics(group)) then 1 else 0
  {
    assert (before + [group])[..|before|] == before;
  }

  /** What the filter does to a generated batch: it keeps exactly the informative groups, whole and in
   *  generation order, and counts them. */
  lemma FilterOnGroups(groups: seq<seq<Row>>, n: nat)
    requires AreGroups(groups, n)
    ensures KeepRows(Flatten(groups), Flatten(groups)) == Flatten(KeepGroups(groups))
    ensures |KeepUids(Uids(Flatten(groups)), Flatten(groups))| == |KeepGroups(groups)|
  {
    GroupsFindThemselves(groups, n);
    FilterKeepsWholeGroups(groups, Flatten(groups));
    UidsOfGroups(groups, n);
    KeptUidCount(groups, n, Flatten(groups));
  }

  lemma {:induction false} KeepGroupsAre(groups: seq<seq<Row>>, n: nat)
    requires AreGroups(groups, n)
    ensures AreGroups(KeepGroups(groups), n)
    ensures forall k :: 0 <= k < |KeepGroups(groups)| ==>
              KeepGroups(groups)[k] in groups && Informative(Metrics(KeepGroups(groups)[k]))
  {
    if groups != [] {
      var last := |groups| - 1;
      KeepGroupsAre(groups[..last], n);
      var before := KeepGroups(groups[..last]);
      forall k | 0 <= k < |before| ensures before[k] in groups && before[k][0].uid != groups[last][0].uid {
        var l :| 0 <= l < last && groups[..last][l] == before[k];
        assert groups[l] == before[k];
      }
    }
  }

  // ----- flattening -----

  lemma {:induction false} FlatLength(groups: seq<seq<Row>>, n: nat)
    requires forall k :: 0 <= k < |groups| ==> |groups[k]| == n
    ensures |Flatten(groups)| == |groups| * n
  {
    if groups != [] {
      FlatLength(groups[..|groups| - 1], n);
      assert |groups| * n == (|groups| - 1) * n + n;
    }
  }

  /** Cutting at a multiple of the group size keeps the first groups whole. */
  lemma CutAtGroups(groups: seq<seq<Row>>, n: nat, m: nat)
    requires m <= |groups| && forall k :: 0 <= k < |groups| ==> |groups[k]| == n
    ensures m * n <= |Flatten(groups)| == |groups| * n
    ensures Flatten(groups)[..m * n] == Flatten(groups[..m])
  {
    FlattenConcat(groups[..m], groups[m..]);
    assert groups == groups[..m] + groups[m..];
    FlatLength(groups, n);
    FlatLength(groups[..m], n);
  }
}
