/** Turn-level REINFORCE leave-one-out advantages. */
module Trloo {
  import opened Reals
  import opened Sequences
  import opened MaskSpans
  import opened TurnRewards

  type Uid = nat
  type Key = (Uid, nat)         // prompt uid and turn index
  type Member = (nat, real)     // row index and the return of that row's turn

  // ----- discounted returns -----

  function Weighted(weight: real, x: real): real {
    weight * x
  }

  function Discounted(reward: real, gamma: real, later: real): real {
    reward + Weighted(gamma, later)
  }

  function Returns(r: seq<real>, gamma: real): (ret: seq<real>)
    ensures |ret| == |r|
  {
    if |r| <= 1 then r
    else
      var rest := Returns(r[1..], gamma);
      [Discounted(r[0], gamma, rest[0])] + rest
  }

  /** The backward loop over the turns of a row. */
  method DiscountedReturns(r: seq<real>, gamma: real) returns (ret: seq<real>)
    ensures ret == Returns(r, gamma)
  {
    var n := |r|;
    if n == 0 { return []; }
    ret := Zeros(n)[n - 1 := r[n - 1]];
    var t := n - 1;
    assert ret[t..] == [r[t]] == r[t..];
    while t > 0
      invariant 0 <= t < n && |ret| == n
      invariant ret[t..] == Returns(r[t..], gamma)
    {
      ghost var rest := ret[t..];
      t := t - 1;
      assert r[t..][1..] == r[t + 1..] && r[t..][0] == r[t];
      assert rest[0] == ret[t + 1];
      ret := ret[t := Discounted(r[t], gamma, ret[t + 1])];
      assert ret[t + 1..] == rest && ret[t..] == [ret[t]] + ret[t + 1..];
      assert Returns(r[t..], gamma) == [Discounted(r[t], gamma, rest[0])] + rest;
    }
    assert r[0..] == r && ret[0..] == ret;
  }

  function Pow(x: real, k: nat): real {
    if k == 0 then 1.0 else x * Pow(x, k - 1)
  }

  lemma WeightedStep(gamma: real, k: nat, x: real)
    ensures Weighted(Pow(gamma, k + 1), x) == Weighted(gamma, Weighted(Pow(gamma, k), x))
  {
    var p := Pow(gamma, k);
    assert gamma * p * x == gamma * (p * x);
  }

  lemma WeightedSum(weight: real, x: real, y: real)
    ensures Weighted(weight, x + y) == Weighted(weight, x) + Weighted(weight, y)
    ensures Weighted(weight, 0.0) == 0.0 && Weighted(1.0, x) == x
  {
  }

  lemma {:induction false} SumWeighted(s: seq<real>, weighted: seq<real>, weight: real)
    requires |weighted| == |s| && forall i :: 0 <= i < |s| ==> weighted[i] == Weighted(weight, s[i])
    ensures Sum(weighted) == Weighted(weight, Sum(s))
  {
    if s == [] {
      WeightedSum(weight, 0.0, 0.0);
    } else {
      var n := |s| - 1;
      SumWeighted(s[..n], weighted[..n], weight);
      WeightedSum(weight, Sum(s[..n]), s[n]);
    }
  }

  /** The terms gamma^k * r[t + k]. */
  function Terms(r: seq<real>, gamma: real, t: nat): seq<real>
    requires t <= |r|
  {
    seq(|r| - t, k requires 0 <= k < |r| - t => Weighted(Pow(gamma, k), r[t + k]))
  }

  /** The backward loop computes the closed form: every return is the discounted sum of what follows. */
  lemma {:induction false} ReturnsAreDiscountedSums(r: seq<real>, gamma: real, t: nat)
    requires t < |r|
    ensures Returns(r, gamma)[t] == Sum(Terms(r, gamma, t))
    decreases |r| - t
  {
    ReturnsUnfold(r, gamma, t);
    TermsUnfold(r, gamma, t);
    if t + 1 < |r| {
      ReturnsAreDiscountedSums(r, gamma, t + 1);
    }
  }

  lemma TermsUnfold(r: seq<real>, gamma: real, t: nat)
    requires t < |r|
    ensures Sum(Terms(r, gamma, t)) == if t + 1 < |r| then Discounted(r[t], gamma, Sum(Terms(r, gamma, t + 1))) else r[t]
  {
    var terms := Terms(r, gamma, t);
    SumSplit(terms, 1);
    FirstTerm(r, gamma, t);
    assert [r[t]][..0] == [] && Sum([r[t]]) == r[t];
    if t + 1 < |r| {
      TermsShift(r, gamma, t);
    } else {
      assert terms[1..] == [];
    }
  }

  lemma FirstTerm(r: seq<real>, gamma: real, t: nat)
    requires t < |r|
    ensures Terms(r, gamma, t)[..1] == [r[t]]
  {
    WeightedSum(1.0, r[t], 0.0);
  }

  lemma TermsShift(r: seq<real>, gamma: real, t: nat)
    requires t + 1 < |r|
    ensures Sum(Terms(r, gamma, t)[1..]) == Weighted(gamma, Sum(Terms(r, gamma, t + 1)))
  {
    var next, tail := Terms(r, gamma, t + 1), Terms(r, gamma, t)[1..];
    forall k | 0 <= k < |tail| ensures tail[k] == Weighted(gamma, next[k]) {
      assert tail[k] == Weighted(Pow(gamma, k + 1), r[t + 1 + k]);
      WeightedStep(gamma, k, r[t + 1 + k]);
    }
    SumWeighted(next, tail, gamma);
  }

  lemma ReturnsUnfold(r: seq<real>, gamma: real, t: nat)
    requires t < |r|
    ensures Returns(r, gamma)[t] == if t + 1 < |r| then Discounted(r[t], gamma, Returns(r, gamma)[t + 1]) else r[t]
  {
    ReturnsSuffix(r, gamma, t);
    var rest := Returns(r[t..], gamma);
    assert Returns(r, gamma)[t] == rest[0];
    assert t + 1 < |r| ==> Returns(r, gamma)[t + 1] == rest[1];
  }

  lemma {:induction false} ReturnsSuffix(r: seq<real>, gamma: real, t: nat)
    requires t <= |r|
    ensures Returns(r, gamma)[t..] == Returns(r[t..], gamma)
    decreases t
  {
    if t == 0 {
      assert r[0..] == r;
    } else {
      ReturnsSuffix(r[1..], gamma, t - 1);
      assert r[1..][t - 1..] == r[t..];
      assert Returns(r, gamma)[1..] == Returns(r[1..], gamma);
      assert Returns(r, gamma)[t..] == Returns(r, gamma)[1..][t - 1..];
    }
  }

  // ----- groups -----

  /** The rows of prompt `uid` that have a turn `t`, in batch order, with the return of that turn. */
  function Members(rets: seq<seq<real>>, index: seq<Uid>, key: Key): seq<Member>
    requires |rets| <= |index|
  {
    if rets == [] then []
    else
      var i := |rets| - 1;
      Members(rets[..i], index, key) +
      if index[i] == key.0 && key.1 < |rets[i]| then [(i, rets[i][key.1])] else []
  }

  function Values(members: seq<Member>): seq<real> {
    seq(|members|, k requires 0 <= k < |members| => members[k].1)
  }

  /** A return against the mean of the other `n - 1` returns of a group with the given total. */
  function AgainstOthers(n: nat, total: real, ret: real): real {
    if n <= 1 then ret else ret - (total - ret) / (n - 1) as real
  }

  /** What a turn's return is worth against the other members of its group. */
  function LeaveOneOut(members: seq<Member>, ret: real): real {
    AgainstOthers(|members|, Sum(Values(members)), ret)
  }

  function Advantage(rets: seq<seq<real>>, index: seq<Uid>, i: nat, t: nat): real
    requires |rets| == |index| && i < |rets| && t < |rets[i]|
  {
    LeaveOneOut(Members(rets, index, (index[i], t)), rets[i][t])
  }

  lemma {:induction false} MembersAre(rets: seq<seq<real>>, index: seq<Uid>, key: Key, k: nat)
    requires |rets| <= |index| && k < |Members(rets, index, key)|
    ensures var (i, ret) := Members(rets, index, key)[k];
            i < |rets| && index[i] == key.0 && key.1 < |rets[i]| && ret == rets[i][key.1]
  {
    var n := |rets| - 1;
    if k < |Members(rets[..n], index, key)| {
      MembersAre(rets[..n], index, key, k);
      assert rets[..n][Members(rets[..n], index, key)[k].0] == rets[Members(rets[..n], index, key)[k].0];
    }
  }

  lemma {:induction false} MemberOfItsGroup(rets: seq<seq<real>>, index: seq<Uid>, i: nat, t: nat)
    requires |rets| <= |index| && i < |rets| && t < |rets[i]|
    ensures (i, rets[i][t]) in Members(rets, index, (index[i], t))
  {
    if i < |rets| - 1 {
      MemberOfItsGroup(rets[..|rets| - 1], index, i, t);
    }
  }

  ghost predicate GroupsAre(order: seq<Key>, groups: map<Key, seq<Member>>, rets: seq<seq<real>>, index: seq<Uid>)
    requires |rets| <= |index|
  {
    Distinct(order) && (forall key :: key in order <==> key in groups) &&
    (forall key :: key in groups <==> Members(rets, index, key) != []) &&
    (forall key :: key in groups ==> groups[key] == Members(rets, index, key))
  }

  /** `group_to_members[key].append(member)`. */
  method AddMember(order: seq<Key>, groups: map<Key, seq<Member>>, key: Key, member: Member,
                   ghost rets: seq<seq<real>>, ghost more: seq<seq<real>>, ghost index: seq<Uid>)
    returns (newOrder: seq<Key>, newGroups: map<Key, seq<Member>>)
    requires |rets| == |more| <= |index| && GroupsAre(order, groups, rets, index) && OneMore(rets, more, index, key, member)
    ensures GroupsAre(newOrder, newGroups, more, index)
  {
    if key in groups {
      KnownGroupGrows(order, groups, rets, more, index, key, member);
      newOrder, newGroups := order, groups[key := groups[key] + [member]];
    } else {
      NewGroupStarts(order, groups, rets, more, index, key, member);
      newOrder, newGroups := order + [key], groups[key := [member]];
    }
  }

  /** The turns of one row. */
  method GroupRow(order0: seq<Key>, groups0: map<Key, seq<Member>>, row: seq<real>, uid: Uid, i: nat,
                  ghost before: seq<seq<real>>, ghost index: seq<Uid>)
    returns (order: seq<Key>, groups: map<Key, seq<Member>>)
    requires i == |before| < |index| && index[i] == uid && GroupsAre(order0, groups0, before + [[]], index)
    ensures GroupsAre(order, groups, before + [row], index)
  {
    order, groups := order0, groups0;
    assert row[..0] == [];
    for t := 0 to |row|
      invariant GroupsAre(order, groups, before + [row[..t]], index)
    {
      OneMoreTurn(before, index, row, t);
      order, groups := AddMember(order, groups, (uid, t), (i, row[t]), before + [row[..t]], before + [row[..t + 1]], index);
    }
    assert row[..|row|] == row;
  }

  lemma NextRow(order: seq<Key>, groups: map<Key, seq<Member>>, before: seq<seq<real>>, index: seq<Uid>)
    requires |before| < |index| && GroupsAre(order, groups, before, index)
    ensures GroupsAre(order, groups, before + [[]], index)
  {
    EmptyRowAddsNoMember(before, index);
  }

  /** The grouping loops: keys in the order in which they first occur. */
  method GroupTurns(rets: seq<seq<real>>, index: seq<Uid>) returns (order: seq<Key>, groups: map<Key, seq<Member>>)
    requires |rets| == |index|
    ensures GroupsAre(order, groups, rets, index)
  {
    order, groups := [], map[];
    for i := 0 to |rets|
      invariant GroupsAre(order, groups, rets[..i], index)
    {
      NextRow(order, groups, rets[..i], index);
      order, groups := GroupRow(order, groups, rets[i], index[i], i, rets[..i], index);
      assert rets[..i] + [rets[i]] == rets[..i + 1];
    }
    assert rets[..|rets|] == rets;
  }

  /** One member more, in group `key`. */
  ghost predicate OneMore(rets: seq<seq<real>>, more: seq<seq<real>>, index: seq<Uid>, key: Key, member: Member)
    requires |rets| == |more| <= |index|
  {
    forall k :: Members(more, index, k) == Members(rets, index, k) + if k == key then [member] else []
  }

  lemma KnownGroupGrows(order: seq<Key>, groups: map<Key, seq<Member>>, rets: seq<seq<real>>, more: seq<seq<real>>,
                        index: seq<Uid>, key: Key, member: Member)
    requires |rets| == |more| <= |index| && GroupsAre(order, groups, rets, index) && OneMore(rets, more, index, key, member)
    requires key in groups
    ensures GroupsAre(order, groups[key := groups[key] + [member]], more, index)
  {
    var after := groups[key := groups[key] + [member]];
    forall k ensures k in after <==> Members(more, index, k) != [] {
      assert k != key ==> Members(more, index, k) == Members(rets, index, k) + [];
    }
    forall k | k in after ensures after[k] == Members(more, index, k) {
      assert k != key ==> Members(more, index, k) == Members(rets, index, k) + [];
    }
  }

  lemma NewGroupStarts(order: seq<Key>, groups: map<Key, seq<Member>>, rets: seq<seq<real>>, more: seq<seq<real>>,
                       index: seq<Uid>, key: Key, member: Member)
    requires |rets| == |more| <= |index| && GroupsAre(order, groups, rets, index) && OneMore(rets, more, index, key, member)
    requires key !in groups
    ensures GroupsAre(order + [key], groups[key := [member]], more, index)
  {
    var after := groups[key := [member]];
    assert Members(rets, index, key) == [];
    forall k ensures k in after <==> Members(more, index, k) != [] {
      assert k != key ==> Members(more, index, k) == Members(rets, index, k) + [];
    }
    forall k | k in after ensures after[k] == Members(more, index, k) {
      assert k != key ==> Members(more, index, k) == Members(rets, index, k) + [];
    }
    assert key !in order;
  }

  lemma EmptyRowAddsNoMember(rets: seq<seq<real>>, index: seq<Uid>)
    requires |rets| < |index|
    ensures forall key :: Members(rets + [[]], index, key) == Members(rets, index, key)
  {
    forall key ensures Members(rets + [[]], index, key) == Members(rets, index, key) {
      assert (rets + [[]])[..|rets|] == rets;
    }
  }

  lemma OneMoreTurn(before: seq<seq<real>>, index: seq<Uid>, row: seq<real>, t: nat)
    requires |before| < |index| && t < |row|
    ensures OneMore(before + [row[..t]], before + [row[..t + 1]], index, (index[|before|], t), (|before|, row[t]))
  {
    var shorter, longer := before + [row[..t]], before + [row[..t + 1]];
    assert longer[..|before|] == before && shorter[..|before|] == before;
    forall k
      ensures Members(longer, index, k) ==
              Members(shorter, index, k) + if k == (index[|before|], t) then [(|before|, row[t])] else []
    {
    }
  }

  // ----- spreading turn values over tokens -----

  /** The span that covers position `p`, or -1. */
  function TurnAt(spans: seq<Span>, p: int): (t: int)
    ensures -1 <= t < |spans|
    ensures t >= 0 ==> spans[t].0 <= p < spans[t].1
    ensures t < 0 ==> forall u :: 0 <= u < |spans| ==> !(spans[u].0 <= p < spans[u].1)
  {
    if spans == [] then -1
    else
      var last := |spans| - 1;
      if spans[last].0 <= p < spans[last].1 then last else TurnAt(spans[..last], p)
  }

  ghost predicate SpansFit(spans: seq<seq<Span>>, width: nat) {
    forall i :: 0 <= i < |spans| ==> LeftToRight(width, spans[i])
  }

  /** A tensor that holds value `values[(i, t)]` on span `t` of row `i` and zero elsewhere. */
  function Spread(spans: seq<seq<Span>>, width: nat, values: map<(nat, nat), real>): seq<seq<real>> {
    seq(|spans|, i requires 0 <= i < |spans| => SpreadRow(spans[i], width, values, i))
  }

  function SpreadRow(spans: seq<Span>, width: nat, values: map<(nat, nat), real>, i: nat): (row: seq<real>)
    ensures |row| == width
  {
    seq(width, p requires 0 <= p < width =>
      var t := TurnAt(spans, p);
      if t >= 0 && (i, t) in values then values[(i, t)] else 0.0)
  }

  /** `row[s:e] = value`. */
  function Fill(row: seq<real>, span: Span, value: real): seq<real>
    requires span.0 <= span.1 <= |row|
  {
    row[..span.0] + seq(span.1 - span.0, _ => value) + row[span.1..]
  }

  lemma FillSpreads(spans: seq<seq<Span>>, width: nat, values: map<(nat, nat), real>, i: nat, t: nat, value: real)
    requires SpansFit(spans, width) && i < |spans| && t < |spans[i]|
    ensures Spread(spans, width, values)[i := Fill(Spread(spans, width, values)[i], spans[i][t], value)] ==
            Spread(spans, width, values[(i, t) := value])
  {
    var row := SpreadRow(spans[i], width, values, i);
    var filled := Fill(row, spans[i][t], value);
    var spread := SpreadRow(spans[i], width, values[(i, t) := value], i);
    forall p | 0 <= p < width ensures filled[p] == spread[p] {
      var u := TurnAt(spans[i], p);
      if u >= 0 && u != t {
        assert spans[i][if u < t then u else t].1 < spans[i][if u < t then t else u].0;
      }
    }
    assert filled == spread;
    var after := Spread(spans, width, values[(i, t) := value]);
    forall j | 0 <= j < |spans| && j != i ensures after[j] == Spread(spans, width, values)[j] {}
  }

  ghost predicate Shaped(rets: seq<seq<real>>, spans: seq<seq<Span>>, index: seq<Uid>) {
    |rets| == |spans| == |index| && forall i :: 0 <= i < |rets| ==> |rets[i]| == |spans[i]|
  }

  ghost predicate IsSlot(rets: seq<seq<real>>, slot: (nat, nat)) {
    slot.0 < |rets| && slot.1 < |rets[slot.0]|
  }

  ghost function SlotsOf(rets: seq<seq<real>>): set<(nat, nat)> {
    set i, t | 0 <= i < |rets| && 0 <= t < |rets[i]| :: (i, t)
  }

  ghost function Advantages(rets: seq<seq<real>>, index: seq<Uid>): map<(nat, nat), real>
    requires |rets| == |index|
  {
    map slot | slot in SlotsOf(rets) :: Advantage(rets, index, slot.0, slot.1)
  }

  ghost function TurnReturns(rets: seq<seq<real>>): map<(nat, nat), real> {
    map slot | slot in SlotsOf(rets) :: rets[slot.0][slot.1]
  }

  /** The slots written once `keys` are done, and of `key` the members before `j`. */
  ghost function Written(rets: seq<seq<real>>, index: seq<Uid>, keys: set<Key>, key: Key, members: seq<Member>): set<(nat, nat)>
    requires |rets| == |index|
  {
    set slot | slot in SlotsOf(rets) &&
      ((index[slot.0], slot.1) in keys || (slot.1 == key.1 && HasRow(members, slot.0)))
  }

  ghost predicate HasRow(members: seq<Member>, i: nat) {
    exists k :: 0 <= k < |members| && members[k].0 == i
  }

  lemma WriteMember(rets: seq<seq<real>>, index: seq<Uid>, keys: set<Key>, key: Key, members: seq<Member>, j: nat)
    requires |rets| == |index| && members == Members(rets, index, key) && j < |members|
    ensures Written(rets, index, keys, key, members[..j + 1]) ==
            Written(rets, index, keys, key, members[..j]) + {(members[j].0, key.1)}
  {
    MembersAre(rets, index, key, j);
    assert members[..j + 1] == members[..j] + [members[j]];
    forall i: nat ensures HasRow(members[..j + 1], i) <==> HasRow(members[..j], i) || i == members[j].0 {
      var longer, shorter := members[..j + 1], members[..j];
      if k :| 0 <= k < |longer| && longer[k].0 == i {
        assert k < j ==> shorter[k].0 == i;
      }
      if k :| 0 <= k < |shorter| && shorter[k].0 == i {
        assert longer[k].0 == i;
      }
      assert longer[j] == members[j];
    }
  }

  lemma WriteGroup(rets: seq<seq<real>>, index: seq<Uid>, keys: set<Key>, key: Key)
    requires |rets| == |index|
    ensures Written(rets, index, keys, key, Members(rets, index, key)) == Written(rets, index, keys + {key}, key, [])
  {
    var members := Members(rets, index, key);
    forall slot | slot in SlotsOf(rets) && slot.1 == key.1
      ensures HasRow(members, slot.0) <==> index[slot.0] == key.0
    {
      if index[slot.0] == key.0 {
        MemberOfItsGroup(rets, index, slot.0, slot.1);
        assert key == (index[slot.0], slot.1);
        var k :| 0 <= k < |members| && members[k] == (slot.0, rets[slot.0][slot.1]);
      }
      if k :| 0 <= k < |members| && members[k].0 == slot.0 {
        MembersAre(rets, index, key, k);
      }
    }
  }

  ghost function Restrict(values: map<(nat, nat), real>, slots: set<(nat, nat)>): map<(nat, nat), real> {
    map slot | slot in values && slot in slots :: values[slot]
  }

  ghost function Keys(order: seq<Key>): set<Key> {
    set key | key in order
  }

  /** Between two groups nothing is half written. */
  lemma NextGroup(rets: seq<seq<real>>, index: seq<Uid>, before: seq<Key>, key: Key, none: Key)
    requires |rets| == |index|
    ensures Written(rets, index, Keys(before), none, []) == Written(rets, index, Keys(before), key, [])
    ensures Written(rets, index, Keys(before), key, Members(rets, index, key)) ==
            Written(rets, index, Keys(before + [key]), none, [])
  {
    WriteGroup(rets, index, Keys(before), key);
    assert Keys(before + [key]) == Keys(before) + {key};
  }

  lemma AllWritten(order: seq<Key>, groups: map<Key, seq<Member>>, rets: seq<seq<real>>, index: seq<Uid>, none: Key)
    requires |rets| == |index| && GroupsAre(order, groups, rets, index)
    ensures Written(rets, index, Keys(order), none, []) == SlotsOf(rets)
  {
    forall slot | slot in SlotsOf(rets) ensures (index[slot.0], slot.1) in order {
      MemberOfItsGroup(rets, index, slot.0, slot.1);
      assert (index[slot.0], slot.1) in groups;
    }
  }

  lemma NothingSpread(spans: seq<seq<Span>>, width: nat)
    ensures Spread(spans, width, map[]) == seq(|spans|, _ => Zeros(width))
  {
    forall i | 0 <= i < |spans| ensures SpreadRow(spans[i], width, map[], i) == Zeros(width) {}
  }

  lemma WriteSlot(spans: seq<seq<Span>>, width: nat, values: map<(nat, nat), real>, slots: set<(nat, nat)>, i: nat, t: nat)
    requires SpansFit(spans, width) && i < |spans| && t < |spans[i]| && (i, t) in values
    ensures var before := Spread(spans, width, Restrict(values, slots));
            before[i := Fill(before[i], spans[i][t], values[(i, t)])] == Spread(spans, width, Restrict(values, slots + {(i, t)}))
  {
    assert Restrict(values, slots + {(i, t)}) == Restrict(values, slots)[(i, t) := values[(i, t)]];
    FillSpreads(spans, width, Restrict(values, slots), i, t, values[(i, t)]);
  }

  /** The tensors hold the advantages and returns of the turns in `slots`, and zeros elsewhere. */
  ghost predicate Tensors(rets: seq<seq<real>>, index: seq<Uid>, spans: seq<seq<Span>>, width: nat, slots: set<(nat, nat)>,
                          advantages: seq<seq<real>>, returns_: seq<seq<real>>)
    requires |rets| == |index|
  {
    advantages == Spread(spans, width, Restrict(Advantages(rets, index), slots)) &&
    returns_ == Spread(spans, width, Restrict(TurnReturns(rets), slots))
  }

  lemma TensorShape(rets: seq<seq<real>>, index: seq<Uid>, spans: seq<seq<Span>>, width: nat, slots: set<(nat, nat)>,
                    advantages: seq<seq<real>>, returns_: seq<seq<real>>)
    requires |rets| == |index| && Tensors(rets, index, spans, width, slots, advantages, returns_)
    ensures |advantages| == |returns_| == |spans|
    ensures forall i :: 0 <= i < |spans| ==> |advantages[i]| == |returns_[i]| == width
  {
  }

  lemma WriteTurn(rets: seq<seq<real>>, index: seq<Uid>, spans: seq<seq<Span>>, width: nat, slots: set<(nat, nat)>,
                  advantages: seq<seq<real>>, returns_: seq<seq<real>>, i: nat, t: nat)
    requires Shaped(rets, spans, index) && SpansFit(spans, width) && IsSlot(rets, (i, t))
    requires Tensors(rets, index, spans, width, slots, advantages, returns_)
    ensures |advantages| == |returns_| == |spans| && |advantages[i]| == |returns_[i]| == width
    ensures spans[i][t].0 <= spans[i][t].1 <= width
    ensures Tensors(rets, index, spans, width, slots + {(i, t)},
                    advantages[i := Fill(advantages[i], spans[i][t], Advantage(rets, index, i, t))],
                    returns_[i := Fill(returns_[i], spans[i][t], rets[i][t])])
  {
    TensorShape(rets, index, spans, width, slots, advantages, returns_);
    assert (i, t) in SlotsOf(rets);
    WriteSlot(spans, width, Advantages(rets, index), slots, i, t);
    WriteSlot(spans, width, TurnReturns(rets), slots, i, t);
  }

  lemma NothingWritten(rets: seq<seq<real>>, index: seq<Uid>, spans: seq<seq<Span>>, width: nat, none: Key)
    requires |rets| == |index|
    ensures Written(rets, index, Keys([]), none, []) == {}
    ensures Tensors(rets, index, spans, width, {}, seq(|spans|, _ => Zeros(width)), seq(|spans|, _ => Zeros(width)))
  {
    NothingSpread(spans, width);
    assert Restrict(Advantages(rets, index), {}) == map[] && Restrict(TurnReturns(rets), {}) == map[];
  }

  lemma EverythingWritten(rets: seq<seq<real>>, index: seq<Uid>, spans: seq<seq<Span>>, width: nat,
                          advantages: seq<seq<real>>, returns_: seq<seq<real>>)
    requires |rets| == |index| && Tensors(rets, index, spans, width, SlotsOf(rets), advantages, returns_)
    ensures advantages == Spread(spans, width, Advantages(rets, index))
    ensures returns_ == Spread(spans, width, TurnReturns(rets))
  {
    assert Restrict(Advantages(rets, index), SlotsOf(rets)) == Advantages(rets, index);
    assert Restrict(TurnReturns(rets), SlotsOf(rets)) == TurnReturns(rets);
  }

  /** The last step: the advantage and the return of every turn, on the tokens of its span. */
  method SpreadGroups(order: seq<Key>, groups: map<Key, seq<Member>>, ghost rets: seq<seq<real>>, spans: seq<seq<Span>>,
                      width: nat, ghost index: seq<Uid>)
    returns (advantages: seq<seq<real>>, returns_: seq<seq<real>>)
    requires Shaped(rets, spans, index) && SpansFit(spans, width) && GroupsAre(order, groups, rets, index)
    ensures advantages == Spread(spans, width, Advantages(rets, index))
    ensures returns_ == Spread(spans, width, TurnReturns(rets))
  {
    ghost var none: Key := (0, 0);
    ghost var slots: set<(nat, nat)> := {};
    advantages := seq(|spans|, _ => Zeros(width));
    returns_ := seq(|spans|, _ => Zeros(width));
    NothingWritten(rets, index, spans, width, none);
    for g := 0 to |order|
      invariant slots == Written(rets, index, Keys(order[..g]), none, [])
      invariant Tensors(rets, index, spans, width, slots, advantages, returns_)
    {
      ghost var key, done := order[g], Keys(order[..g]);
      assert order[..g + 1] == order[..g] + [key];
      assert key in order;
      NextGroup(rets, index, order[..g], key, none);
      advantages, returns_ := SpreadGroup(order[g], groups[order[g]], rets, spans, width, index, done, advantages, returns_);
      slots := Written(rets, index, done, key, groups[key]);
    }
    assert order[..|order|] == order;
    AllWritten(order, groups, rets, index, none);
    EverythingWritten(rets, index, spans, width, advantages, returns_);
  }

  /** The value the loop computes for a member is the turn's advantage. */
  lemma MemberAdvantage(rets: seq<seq<real>>, index: seq<Uid>, key: Key, members: seq<Member>, j: nat)
    requires |rets| == |index| && members == Members(rets, index, key) && j < |members|
    ensures var (i, ret) := members[j];
            IsSlot(rets, (i, key.1)) && rets[i][key.1] == ret && Advantage(rets, index, i, key.1) == LeaveOneOut(members, ret)
  {
    MembersAre(rets, index, key, j);
    assert (index[members[j].0], key.1) == key;
  }

  method SpreadGroup(key: Key, members: seq<Member>, ghost rets: seq<seq<real>>, spans: seq<seq<Span>>, width: nat,
                     ghost index: seq<Uid>, ghost done: set<Key>, advantages0: seq<seq<real>>, returns0: seq<seq<real>>)
    returns (advantages: seq<seq<real>>, returns_: seq<seq<real>>)
    requires Shaped(rets, spans, index) && SpansFit(spans, width) && members == Members(rets, index, key) && members != []
    requires Tensors(rets, index, spans, width, Written(rets, index, done, key, []), advantages0, returns0)
    ensures Tensors(rets, index, spans, width, Written(rets, index, done, key, members), advantages, returns_)
  {
    advantages, returns_ := advantages0, returns0;
    var n, total := |members|, Sum(Values(members));
    assert members[..0] == [];
    for j := 0 to n
      invariant Tensors(rets, index, spans, width, Written(rets, index, done, key, members[..j]), advantages, returns_)
    {
      var (i, ret) := members[j];
      MemberAdvantage(rets, index, key, members, j);
      var advantage := AgainstOthers(n, total, ret);
      WriteTurn(rets, index, spans, width, Written(rets, index, done, key, members[..j]), advantages, returns_, i, key.1);
      WriteMember(rets, index, done, key, members, j);
      var span := spans[i][key.1];
      advantages := advantages[i := Fill(advantages[i], span, advantage)];
      returns_ := returns_[i := Fill(returns_[i], span, ret)];
    }
    assert members[..n] == members;
  }

  // ----- the estimator -----

  datatype Batch = Batch(rewards: seq<seq<real>>, masks: seq<seq<bool>>, index: seq<Uid>, width: nat)

  ghost predicate WellShaped(b: Batch) {
    |b.rewards| == |b.masks| == |b.index| &&
    forall i :: 0 <= i < |b.masks| ==> |b.rewards[i]| == |b.masks[i]| == b.width
  }

  /** Step 1: the assistant-turn spans of every row. */
  function SpansOf(b: Batch): seq<seq<Span>> {
    seq(|b.masks|, i requires 0 <= i < |b.masks| => Runs(b.masks[i]))
  }

  /** Steps 2 and 3: span sums, discounted backwards within the row. */
  function ReturnsOf(b: Batch, gamma: real): (rets: seq<seq<real>>)
    requires WellShaped(b)
    ensures |rets| == |b.masks| && forall i :: 0 <= i < |rets| ==> |rets[i]| == |Runs(b.masks[i])|
  {
    seq(|b.masks|, i requires 0 <= i < |b.masks| => Returns(TurnSums(b.rewards[i], b.masks[i]), gamma))
  }

  /** Step 5: every turn's advantage on the tokens of its span. */
  ghost function AdvantageTensor(b: Batch, gamma: real): seq<seq<real>>
    requires WellShaped(b)
  {
    Spread(SpansOf(b), b.width, Advantages(ReturnsOf(b, gamma), b.index))
  }

  /** And every turn's return. */
  ghost function ReturnTensor(b: Batch, gamma: real): seq<seq<real>>
    requires WellShaped(b)
  {
    Spread(SpansOf(b), b.width, TurnReturns(ReturnsOf(b, gamma)))
  }

  /** Steps 1 to 3, row by row. */
  method SpansAndReturns(b: Batch, gamma: real) returns (spans: seq<seq<Span>>, rets: seq<seq<real>>)
    requires WellShaped(b)
    ensures spans == SpansOf(b) && rets == ReturnsOf(b, gamma)
  {
    spans, rets := [], [];
    for i := 0 to |b.masks|
      invariant spans == SpansOf(b)[..i] && rets == ReturnsOf(b, gamma)[..i]
    {
      var row, ret := RowReturns(b.rewards[i], b.masks[i], gamma);
      spans, rets := spans + [row], rets + [ret];
    }
  }

  method RowReturns(rewards: seq<real>, mask: seq<bool>, gamma: real) returns (spans: seq<Span>, ret: seq<real>)
    requires |rewards| == |mask|
    ensures spans == Runs(mask) && ret == Returns(TurnSums(rewards, mask), gamma)
  {
    spans := MaskRuns(mask, |mask|);
    var sums := seq(|spans|, t requires 0 <= t < |spans| => SpanSum(rewards, spans[t]));
    assert sums == TurnSums(rewards, mask);
    ret := DiscountedReturns(sums, gamma);
  }

  lemma ShapesFit(b: Batch, gamma: real)
    requires WellShaped(b)
    ensures SpansFit(SpansOf(b), b.width) && Shaped(ReturnsOf(b, gamma), SpansOf(b), b.index)
  {
    var spans := SpansOf(b);
    forall i | 0 <= i < |spans| ensures LeftToRight(b.width, spans[i]) {
      RunsAreLeftToRight(b.masks[i]);
    }
  }

  /** A position in a span belongs to that span only. */
  lemma TurnAtIs(width: nat, spans: seq<Span>, t: nat, p: nat)
    requires LeftToRight(width, spans) && t < |spans| && Within(p, spans[t])
    ensures TurnAt(spans, p) == t
  {
    forall u: nat | u < |spans| && u != t ensures !Within(p, spans[u]) {
      assert u < t ==> spans[u].1 < spans[t].0;
      assert t < u ==> spans[t].1 < spans[u].0;
    }
  }

  /** Every token of a span carries the value of its turn, and a token off the spans carries zero. */
  lemma SpreadIsConstantOnSpans(b: Batch, values: map<(nat, nat), real>, i: nat, p: nat)
    requires i < |b.masks| && p < b.width == |b.masks[i]|
    ensures var row := Spread(SpansOf(b), b.width, values)[i];
            (!b.masks[i][p] ==> row[p] == 0.0) &&
            (forall t: nat :: t < |Runs(b.masks[i])| && Within(p, Runs(b.masks[i])[t]) && (i, t) in values ==> row[p] == values[(i, t)])
  {
    var mask := b.masks[i];
    RunsAreLeftToRight(mask);
    forall t: nat | t < |Runs(mask)| && Within(p, Runs(mask)[t]) ensures TurnAt(Runs(mask), p) == t {
      TurnAtIs(|mask|, Runs(mask), t, p);
    }
    if !mask[p] {
      NoTurnAt(mask, p);
    }
  }

  lemma NoTurnAt(mask: seq<bool>, p: nat)
    requires p < |mask| && !mask[p]
    ensures TurnAt(Runs(mask), p) == -1
  {
    RunsAreRuns(mask);
    CoverIsMask(mask, Runs(mask), p);
    forall u: nat | u < |Runs(mask)| ensures !Within(p, Runs(mask)[u]) {}
  }

  // ----- counting a group -----

  function Flags(rets: seq<seq<real>>, index: seq<Uid>, key: Key): seq<bool>
    requires |rets| == |index|
  {
    seq(|rets|, i requires 0 <= i < |rets| => index[i] == key.0 && key.1 < |rets[i]|)
  }

  function Shares(rets: seq<seq<real>>, index: seq<Uid>, key: Key): seq<real>
    requires |rets| == |index|
  {
    seq(|rets|, i requires 0 <= i < |rets| => if index[i] == key.0 && key.1 < |rets[i]| then rets[i][key.1] else 0.0)
  }

  lemma {:induction false} GroupTotals(rets: seq<seq<real>>, index: seq<Uid>, key: Key)
    requires |rets| == |index|
    ensures |Members(rets, index, key)| == Count(Flags(rets, index, key))
    ensures Sum(Values(Members(rets, index, key))) == Sum(Shares(rets, index, key))
  {
    if rets != [] {
      var n := |rets| - 1;
      GroupTotals(rets[..n], index[..n], key);
      MembersIgnoreRest(rets[..n], index, key);
      assert Flags(rets, index, key)[..n] == Flags(rets[..n], index[..n], key);
      assert Shares(rets, index, key)[..n] == Shares(rets[..n], index[..n], key);
      var before, after := Members(rets[..n], index, key), Members(rets, index, key);
      if after != before {
        assert Values(after)[..|before|] == Values(before);
      }
    }
  }

  lemma {:induction false} MembersIgnoreRest(rets: seq<seq<real>>, index: seq<Uid>, key: Key)
    requires |rets| <= |index|
    ensures Members(rets, index[..|rets|], key) == Members(rets, index, key)
  {
    if rets != [] {
      var n := |rets| - 1;
      MembersIgnoreRest(rets[..n], index, key);
      MembersIgnoreRest(rets[..n], index[..|rets|], key);
      assert index[..|rets|][..n] == index[..n];
    }
  }

  // ----- what the tokens of a turn are due -----

  /** What the row got on span t + k, times gamma^k, for every k. */
  function Dues(row: seq<real>, mask: seq<bool>, gamma: real, t: nat): seq<real>
    requires |row| == |mask| && t <= |Runs(mask)|
  {
    var spans := Runs(mask);
    seq(|spans| - t, k requires 0 <= k < |spans| - t => Pow(gamma, k) * Sum(row[spans[t + k].0..spans[t + k].1]))
  }

  /** The rewards of a turn and of the later turns of its row, discounted. */
  function Due(b: Batch, gamma: real, i: nat, t: nat): real
    requires WellShaped(b) && i < |b.masks| && t < |Runs(b.masks[i])|
  {
    Sum(Dues(b.rewards[i], b.masks[i], gamma, t))
  }

  /** The other rows of the prompt that have a turn `t`. */
  function Rivals(b: Batch, i: nat, t: nat): (r: seq<bool>)
    requires WellShaped(b) && i < |b.masks|
    ensures |r| == |b.masks|
  {
    seq(|b.masks|, j requires 0 <= j < |b.masks| => j != i && b.index[j] == b.index[i] && t < |Runs(b.masks[j])|)
  }

  function RivalDues(b: Batch, gamma: real, i: nat, t: nat): (r: seq<real>)
    requires WellShaped(b) && i < |b.masks|
    ensures |r| == |b.masks|
  {
    seq(|b.masks|, j requires 0 <= j < |b.masks| => if Rivals(b, i, t)[j] then Due(b, gamma, j, t) else 0.0)
  }

  /** What a turn is due against the mean of its rivals, or all of it without any. */
  function DueAgainstRivals(b: Batch, gamma: real, i: nat, t: nat): real
    requires WellShaped(b) && i < |b.masks| && t < |Runs(b.masks[i])|
  {
    var n := Count(Rivals(b, i, t));
    if n == 0 then Due(b, gamma, i, t) else Due(b, gamma, i, t) - Sum(RivalDues(b, gamma, i, t)) / n as real
  }

  /** The tokens of a turn carry its advantage and return, and the others nothing. */
  ghost predicate CarriesDue(b: Batch, gamma: real, i: nat, p: nat, advantage: real, ret: real)
    requires WellShaped(b) && i < |b.masks| && p < b.width
  {
    var spans := Runs(b.masks[i]);
    (!b.masks[i][p] ==> advantage == 0.0 && ret == 0.0) &&
    (forall t: nat :: t < |spans| && Within(p, spans[t]) ==>
       ret == Due(b, gamma, i, t) && advantage == DueAgainstRivals(b, gamma, i, t))
  }

  ghost predicate CarryDues(b: Batch, gamma: real, advantages: seq<seq<real>>, returns_: seq<seq<real>>)
    requires WellShaped(b)
  {
    |advantages| == |returns_| == |b.masks| &&
    forall i, p :: 0 <= i < |b.masks| && 0 <= p < b.width ==>
      |advantages[i]| == |returns_[i]| == b.width && CarriesDue(b, gamma, i, p, advantages[i][p], returns_[i][p])
  }

  lemma TermIsDue(row: seq<real>, mask: seq<bool>, gamma: real, t: nat, k: nat)
    requires |row| == |mask| && t + k < |Runs(mask)|
    ensures Terms(TurnSums(row, mask), gamma, t)[k] == Dues(row, mask, gamma, t)[k]
  {
    assert TurnSums(row, mask)[t + k] == SpanSum(row, Runs(mask)[t + k]);
  }

  lemma TermsAreDues(row: seq<real>, mask: seq<bool>, gamma: real, t: nat)
    requires |row| == |mask| && t <= |Runs(mask)|
    ensures Terms(TurnSums(row, mask), gamma, t) == Dues(row, mask, gamma, t)
  {
    var terms, dues := Terms(TurnSums(row, mask), gamma, t), Dues(row, mask, gamma, t);
    assert |terms| == |dues| == |Runs(mask)| - t;
    forall k: nat | k < |Runs(mask)| - t ensures terms[k] == dues[k] {
      TermIsDue(row, mask, gamma, t, k);
    }
  }

  lemma ReturnIsDue(b: Batch, gamma: real, i: nat, t: nat)
    requires WellShaped(b) && i < |b.masks| && t < |Runs(b.masks[i])|
    ensures ReturnsOf(b, gamma)[i][t] == Due(b, gamma, i, t)
  {
    ReturnsAreDiscountedSums(TurnSums(b.rewards[i], b.masks[i]), gamma, t);
    TermsAreDues(b.rewards[i], b.masks[i], gamma, t);
  }

  lemma RivalsCount(b: Batch, gamma: real, i: nat, t: nat)
    requires WellShaped(b) && i < |b.masks| && t < |Runs(b.masks[i])|
    ensures Count(Flags(ReturnsOf(b, gamma), b.index, (b.index[i], t))) == Count(Rivals(b, i, t)) + 1
  {
    var flags := Flags(ReturnsOf(b, gamma), b.index, (b.index[i], t));
    CountUpdate(flags, i);
    assert flags[i := false] == Rivals(b, i, t);
  }

  lemma RivalsTotal(b: Batch, gamma: real, i: nat, t: nat)
    requires WellShaped(b) && i < |b.masks| && t < |Runs(b.masks[i])|
    ensures Sum(Shares(ReturnsOf(b, gamma), b.index, (b.index[i], t))) == Sum(RivalDues(b, gamma, i, t)) + Due(b, gamma, i, t)
  {
    var shares := Shares(ReturnsOf(b, gamma), b.index, (b.index[i], t));
    SumUpdate(shares, i, 0.0);
    forall j: nat | j < |b.masks| ensures shares[i := 0.0][j] == RivalDues(b, gamma, i, t)[j] {
      if Rivals(b, i, t)[j] { ReturnIsDue(b, gamma, j, t); }
    }
    assert shares[i := 0.0] == RivalDues(b, gamma, i, t);
    ReturnIsDue(b, gamma, i, t);
  }

  lemma AdvantageFrom(rets: seq<seq<real>>, index: seq<Uid>, i: nat, t: nat, n: nat, total: real, due: real)
    requires |rets| == |index| && i < |rets| && t < |rets[i]| && rets[i][t] == due
    requires |Members(rets, index, (index[i], t))| == n + 1 && Sum(Values(Members(rets, index, (index[i], t)))) == total + due
    ensures Advantage(rets, index, i, t) == if n == 0 then due else due - total / n as real
  {
    assert total + due - due == total;
  }

  lemma AdvantageIsAgainstRivals(b: Batch, gamma: real, i: nat, t: nat)
    requires WellShaped(b) && i < |b.masks| && t < |Runs(b.masks[i])|
    ensures Advantage(ReturnsOf(b, gamma), b.index, i, t) == DueAgainstRivals(b, gamma, i, t)
  {
    var rets := ReturnsOf(b, gamma);
    GroupTotals(rets, b.index, (b.index[i], t));
    RivalsCount(b, gamma, i, t);
    RivalsTotal(b, gamma, i, t);
    ReturnIsDue(b, gamma, i, t);
    AdvantageFrom(rets, b.index, i, t, Count(Rivals(b, i, t)), Sum(RivalDues(b, gamma, i, t)), Due(b, gamma, i, t));
  }

  /** The two tensors hold what the tokens are due. */
  lemma TensorsCarryDues(b: Batch, gamma: real)
    requires WellShaped(b)
    ensures CarryDues(b, gamma, AdvantageTensor(b, gamma), ReturnTensor(b, gamma))
  {
    var rets := ReturnsOf(b, gamma);
    forall i: nat, p: nat | i < |b.masks| && p < b.width
      ensures CarriesDue(b, gamma, i, p, AdvantageTensor(b, gamma)[i][p], ReturnTensor(b, gamma)[i][p])
    {
      SpreadIsConstantOnSpans(b, Advantages(rets, b.index), i, p);
      SpreadIsConstantOnSpans(b, TurnReturns(rets), i, p);
      forall t: nat | t < |Runs(b.masks[i])| && Within(p, Runs(b.masks[i])[t])
        ensures ReturnTensor(b, gamma)[i][p] == Due(b, gamma, i, t)
        ensures AdvantageTensor(b, gamma)[i][p] == DueAgainstRivals(b, gamma, i, t)
      {
        assert (i, t) in SlotsOf(rets);
        ReturnIsDue(b, gamma, i, t);
        AdvantageIsAgainstRivals(b, gamma, i, t);
      }
    }
  }

  /** `compute_trloo_outcome_advantage`: at every token of turn t of a row the return is the discounted sum of the
   *  rewards of that turn and the later ones, and the advantage is that against the mean of the other rows of the
   *  prompt that have a turn t. */
  method Compute(b: Batch, gamma: real) returns (advantages: seq<seq<real>>, returns_: seq<seq<real>>)
    requires WellShaped(b)
    ensures advantages == AdvantageTensor(b, gamma) && returns_ == ReturnTensor(b, gamma)
    ensures CarryDues(b, gamma, advantages, returns_)
  {
    var spans, rets := SpansAndReturns(b, gamma);
    var order, groups := GroupTurns(rets, b.index);
    ShapesFit(b, gamma);
    advantages, returns_ := SpreadGroups(order, groups, rets, spans, b.width, b.index);
    TensorsCarryDues(b, gamma);
  }

  // ----- leave-one-out algebra -----

  /** A turn's advantage is n / (n - 1) times its distance from the group mean. */
  lemma AdvantageIsScaledDeviation(rets: seq<seq<real>>, index: seq<Uid>, i: nat, t: nat)
    requires |rets| == |index| && i < |rets| && t < |rets[i]|
    ensures var members := Members(rets, index, (index[i], t));
            var n := |members|;
            n >= 1 &&
            (n == 1 ==> Advantage(rets, index, i, t) == rets[i][t]) &&
            (n >= 2 ==> Advantage(rets, index, i, t) ==
                        (n as real / (n - 1) as real) * (rets[i][t] - Sum(Values(members)) / n as real))
  {
    MemberOfItsGroup(rets, index, i, t);
    var members := Members(rets, index, (index[i], t));
    if |members| >= 2 {
      ScaledDeviation(|members| as real, (|members| - 1) as real, Sum(Values(members)), rets[i][t]);
    }
  }

  lemma ScaledDeviation(n: real, d: real, total: real, x: real)
    requires n > 1.0 && d == n - 1.0
    ensures x - (total - x) / d == (n / d) * (x - total / n)
  {
    assert (x - (total - x) / d) * d == x * d - (total - x);
    var q := n / d;
    assert q * d == n;
    var m := total / n;
    assert m * n == total;
    assert (q * (x - m)) * d == (q * d) * (x - m);
    assert n * (x - m) == n * x - m * n;
    Cancel(x - (total - x) / d, q * (x - m), d);
  }

  /** The advantages of the members of a group, as the estimator assigns them. */
  ghost function GroupAdvantages(rets: seq<seq<real>>, index: seq<Uid>, key: Key): seq<real>
    requires |rets| == |index|
  {
    var members := Members(rets, index, key);
    seq(|members|, k requires 0 <= k < |members| =>
      MembersAre(rets, index, key, k); Advantage(rets, index, members[k].0, key.1))
  }

  lemma {:induction false} AffineSum(values: seq<real>, scaled: seq<real>, a: real, b: real)
    requires |scaled| == |values| && forall k :: 0 <= k < |values| ==> scaled[k] == Weighted(a, values[k]) + b
    ensures Sum(scaled) == Weighted(a, Sum(values)) + Weighted(|values| as real, b)
  {
    if values == [] {
      WeightedSum(a, 0.0, 0.0);
    } else {
      var n := |values| - 1;
      AffineSum(values[..n], scaled[..n], a, b);
      WeightedSum(a, Sum(values[..n]), values[n]);
      CountUp(n as real, b);
    }
  }

  lemma CountUp(n: real, b: real)
    ensures Weighted(n + 1.0, b) == Weighted(n, b) + b
  {
  }

  /** A member's advantage is affine in its return. */
  lemma AgainstOthersIsAffine(n: nat, total: real, x: real)
    requires n >= 2
    ensures AgainstOthers(n, total, x) == Weighted(n as real / (n - 1) as real, x) + -total / (n - 1) as real
  {
    var d := (n - 1) as real;
    Affine(n as real, d, total, x, n as real / d, -total / d);
  }

  lemma Affine(n: real, d: real, total: real, x: real, a: real, b: real)
    requires d == n - 1.0 && d > 0.0 && a == n / d && b == -total / d
    ensures x - (total - x) / d == a * x + b
  {
    assert a * d == n && b * d == -total;
    assert (x - (total - x) / d) * d == x * d - (total - x);
    assert (a * x + b) * d == (a * d) * x + b * d == n * x - total;
    assert n * x == x * d + x;
    Cancel(x - (total - x) / d, a * x + b, d);
  }

  lemma SharesCancel(n: real, d: real, total: real)
    requires d > 0.0
    ensures Weighted(n / d, total) + Weighted(n, -total / d) == 0.0
  {
    var a, b := n / d, -total / d;
    assert a * d == n && b * d == -total;
    assert (a * total + n * b) * d == (a * d) * total + n * (b * d);
    Cancel(a * total + n * b, 0.0, d);
  }

  lemma DeviationsCancel(members: seq<Member>, advantages: seq<real>)
    requires |members| == |advantages| >= 2
    requires forall k :: 0 <= k < |members| ==> advantages[k] == LeaveOneOut(members, members[k].1)
    ensures Sum(advantages) == 0.0
  {
    var n, total := |members|, Sum(Values(members));
    var a, b := n as real / (n - 1) as real, -total / (n - 1) as real;
    forall k | 0 <= k < n ensures advantages[k] == Weighted(a, Values(members)[k]) + b {
      AgainstOthersIsAffine(n, total, members[k].1);
    }
    AffineSum(Values(members), advantages, a, b);
    SharesCancel(n as real, (n - 1) as real, total);
  }

  /** In every (prompt, turn) group of at least two members the advantages sum to zero. */
  lemma GroupAdvantagesCancel(rets: seq<seq<real>>, index: seq<Uid>, key: Key)
    requires |rets| == |index| && |Members(rets, index, key)| >= 2
    ensures Sum(GroupAdvantages(rets, index, key)) == 0.0
  {
    var members := Members(rets, index, key);
    var advantages := GroupAdvantages(rets, index, key);
    forall k | 0 <= k < |members| ensures advantages[k] == LeaveOneOut(members, members[k].1) {
      MembersAre(rets, index, key, k);
      assert (index[members[k].0], key.1) == key;
    }
    DeviationsCancel(members, advantages);
  }

  /** Both tensors of returns have turn `t` in row `j` or neither has, with the same return. */
  ghost predicate AgreeAt(row: seq<real>, other: seq<real>, t: nat) {
    (t < |row| <==> t < |other|) && (t < |row| ==> row[t] == other[t])
  }

  /** What the rows hold outside the group has no influence on its members. */
  lemma {:induction false} MembersAreLocal(rets: seq<seq<real>>, other: seq<seq<real>>, index: seq<Uid>, key: Key)
    requires |rets| == |other| <= |index|
    requires forall j :: 0 <= j < |rets| && index[j] == key.0 ==> AgreeAt(rets[j], other[j], key.1)
    ensures Members(other, index, key) == Members(rets, index, key)
  {
    if rets != [] {
      MembersAreLocal(rets[..|rets| - 1], other[..|rets| - 1], index, key);
    }
  }

  /** An advantage depends on its (prompt, turn) group only: other prompts, and other turns of the same rows, may
   *  change at will. */
  lemma AdvantageIsLocal(rets: seq<seq<real>>, other: seq<seq<real>>, index: seq<Uid>, i: nat, t: nat)
    requires |rets| == |other| == |index| && i < |rets| && t < |rets[i]|
    requires forall j :: 0 <= j < |rets| && index[j] == index[i] ==> AgreeAt(rets[j], other[j], t)
    ensures t < |other[i]| && Advantage(other, index, i, t) == Advantage(rets, index, i, t)
  {
    MembersAreLocal(rets, other, index, (index[i], t));
  }

  // ----- order of the rows -----

  lemma PermutedFlags(rets: seq<seq<real>>, index: seq<Uid>, order: seq<nat>, key: Key)
    requires |rets| == |index| && IsPermutation(order, |rets|)
    ensures Count(Flags(Gather(rets, order), Gather(index, order), key)) == Count(Flags(rets, index, key))
  {
    var flags := Flags(rets, index, key);
    assert Flags(Gather(rets, order), Gather(index, order), key) == Gather(flags, order);
    GatherKeepsMultiset(flags, order);
    CountIsMultiplicity(flags);
    CountIsMultiplicity(Gather(flags, order));
  }

  lemma PermutedShares(rets: seq<seq<real>>, index: seq<Uid>, order: seq<nat>, key: Key)
    requires |rets| == |index| && IsPermutation(order, |rets|)
    ensures Sum(Shares(Gather(rets, order), Gather(index, order), key)) == Sum(Shares(rets, index, key))
  {
    var shares := Shares(rets, index, key);
    assert Shares(Gather(rets, order), Gather(index, order), key) == Gather(shares, order);
    GatherKeepsMultiset(shares, order);
    SumPermuted(Gather(shares, order), shares);
  }

  lemma AdvantagePermuted(rets: seq<seq<real>>, index: seq<Uid>, order: seq<nat>, k: nat, t: nat)
    requires |rets| == |index| && IsPermutation(order, |rets|) && k < |order| && t < |rets[order[k]]|
    ensures Advantage(Gather(rets, order), Gather(index, order), k, t) == Advantage(rets, index, order[k], t)
  {
    var key := (index[order[k]], t);
    GroupTotals(rets, index, key);
    GroupTotals(Gather(rets, order), Gather(index, order), key);
    PermutedFlags(rets, index, order, key);
    PermutedShares(rets, index, order, key);
  }

  lemma {:induction false} CountIsMultiplicity(s: seq<bool>)
    ensures Count(s) == multiset(s)[true]
  {
    if s != [] {
      CountIsMultiplicity(s[..|s| - 1]);
      assert s == s[..|s| - 1] + [s[|s| - 1]];
    }
  }

  function Permuted(b: Batch, order: seq<nat>): Batch
    requires WellShaped(b) && IsPermutation(order, |b.masks|)
  {
    Batch(Gather(b.rewards, order), Gather(b.masks, order), Gather(b.index, order), b.width)
  }

  lemma PermutedReturns(b: Batch, gamma: real, order: seq<nat>)
    requires WellShaped(b) && IsPermutation(order, |b.masks|)
    ensures WellShaped(Permuted(b, order))
    ensures SpansOf(Permuted(b, order)) == Gather(SpansOf(b), order)
    ensures ReturnsOf(Permuted(b, order), gamma) == Gather(ReturnsOf(b, gamma), order)
  {
    var permuted := Permuted(b, order);
    forall k | 0 <= k < |order|
      ensures |permuted.rewards[k]| == |permuted.masks[k]| == b.width
      ensures SpansOf(permuted)[k] == SpansOf(b)[order[k]]
      ensures WellShaped(permuted) ==> ReturnsOf(permuted, gamma)[k] == ReturnsOf(b, gamma)[order[k]]
    {
    }
  }

  /** Rows of a spread tensor are the same when their spans and values are. */
  lemma SameRow(spans: seq<Span>, width: nat, values: map<(nat, nat), real>, others: map<(nat, nat), real>, i: nat, j: nat)
    requires forall t: nat :: t < |spans| ==>
               ((i, t) in values <==> (j, t) in others) && ((i, t) in values ==> values[(i, t)] == others[(j, t)])
    ensures SpreadRow(spans, width, values, i) == SpreadRow(spans, width, others, j)
  {
  }

  lemma AdvantageRowPermuted(rets: seq<seq<real>>, spans: seq<seq<Span>>, index: seq<Uid>, width: nat, order: seq<nat>, k: nat)
    requires Shaped(rets, spans, index) && IsPermutation(order, |rets|) && k < |order|
    ensures SpreadRow(spans[order[k]], width, Advantages(Gather(rets, order), Gather(index, order)), k) ==
            SpreadRow(spans[order[k]], width, Advantages(rets, index), order[k])
  {
    forall t: nat | t < |spans[order[k]]|
      ensures (k, t) in SlotsOf(Gather(rets, order)) && (order[k], t) in SlotsOf(rets)
      ensures Advantage(Gather(rets, order), Gather(index, order), k, t) == Advantage(rets, index, order[k], t)
    {
      AdvantagePermuted(rets, index, order, k, t);
    }
    SameRow(spans[order[k]], width, Advantages(Gather(rets, order), Gather(index, order)), Advantages(rets, index), k, order[k]);
  }

  lemma ReturnRowPermuted(rets: seq<seq<real>>, spans: seq<seq<Span>>, index: seq<Uid>, width: nat, order: seq<nat>, k: nat)
    requires Shaped(rets, spans, index) && IsPermutation(order, |rets|) && k < |order|
    ensures SpreadRow(spans[order[k]], width, TurnReturns(Gather(rets, order)), k) ==
            SpreadRow(spans[order[k]], width, TurnReturns(rets), order[k])
  {
    forall t: nat | t < |spans[order[k]]|
      ensures (k, t) in SlotsOf(Gather(rets, order)) && (order[k], t) in SlotsOf(rets)
    {
    }
    SameRow(spans[order[k]], width, TurnReturns(Gather(rets, order)), TurnReturns(rets), k, order[k]);
  }

  /** Both output tensors commute with a permutation of the rows. */
  lemma AdvantagesCommuteWithPermutation(b: Batch, gamma: real, order: seq<nat>)
    requires WellShaped(b) && IsPermutation(order, |b.masks|)
    ensures WellShaped(Permuted(b, order))
    ensures AdvantageTensor(Permuted(b, order), gamma) == Gather(AdvantageTensor(b, gamma), order)
    ensures ReturnTensor(Permuted(b, order), gamma) == Gather(ReturnTensor(b, gamma), order)
  {
    PermutedReturns(b, gamma, order);
    ShapesFit(b, gamma);
    var rets, spans := ReturnsOf(b, gamma), SpansOf(b);
    forall k | 0 <= k < |order|
      ensures AdvantageTensor(Permuted(b, order), gamma)[k] == AdvantageTensor(b, gamma)[order[k]]
      ensures ReturnTensor(Permuted(b, order), gamma)[k] == ReturnTensor(b, gamma)[order[k]]
    {
      AdvantageRowPermuted(rets, spans, b.index, b.width, order, k);
      ReturnRowPermuted(rets, spans, b.index, b.width, order, k);
    }
  }
}
