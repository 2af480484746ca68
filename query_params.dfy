/**
  The flat parameter dictionary of an AWS Query request and the two ways the
  CloudFormation operations fill it: a key written only for a truthy
  argument, and the 1-indexed `Parameters.member.<i>.ParameterKey` /
  `Parameters.member.<i>.ParameterValue` series for the stack parameters.
 */
module QueryParams {
  import opened Values
  import opened Decimal

  /** The `params` dict handed to the transport: string keys, Python values. */
  type Params = map<string, Value>

  /** The entry `{key: v}` when v is truthy, and nothing otherwise (`if v: params[key] = v`). */
  function Optional(key: string, v: Value): (m: Params)
    ensures key in m <==> Truthy(v)
    ensures m.Keys <= {key}
    ensures key in m ==> m[key] == v
  {
    if Truthy(v) then map[key := v] else map[]
  }

  lemma OptionalSize(key: string, v: Value)
    ensures |Optional(key, v)| == if Truthy(v) then 1 else 0
  {
    if Truthy(v) {
      assert Optional(key, v).Keys == {key};
    } else {
      assert Optional(key, v).Keys == {};
    }
  }

  /** Entries of two dicts without common keys add up. */
  lemma DisjointUnionSize(x: Params, y: Params)
    requires x.Keys !! y.Keys
    ensures |x + y| == |x| + |y|
  {
    assert (x + y).Keys == x.Keys + y.Keys;
  }

  /** The guarded insert `if v: params[key] = v` adds exactly `Optional(key, v)`. */
  lemma GuardedInsert(m: Params, key: string, v: Value)
    ensures (if Truthy(v) then m[key := v] else m) == m + Optional(key, v)
  {
  }

  /** Writing into the later part of a union is writing into the union. */
  lemma UnionUpdate(a: Params, b: Params, key: string, v: Value)
    ensures a + b[key := v] == (a + b)[key := v]
  {
  }

  const KeyField := "ParameterKey"
  const ValueField := "ParameterValue"

  /**
    `'Parameters.member.%d.<field>' % i`: the member prefix, the decimal index
    and the field name, separated by dots.
   */
  function MemberKey(i: nat, field: string): (k: string)
    ensures |k| == 19 + |DecimalString(i)| + |field|
    ensures k[..18] == "Parameters.member." && k[|k| - |field|..] == field
  {
    "Parameters.member." + DecimalString(i) + "." + field
  }

  /** k is the key or value entry of one of the members 1..n. */
  ghost predicate IsMemberKey(k: string, n: nat) {
    exists i :: 1 <= i <= n && (k == MemberKey(i, KeyField) || k == MemberKey(i, ValueField))
  }

  /** Every member key starts with `P`, which no fixed key of the operations does. */
  lemma MemberKeyHead(i: nat, field: string)
    ensures |MemberKey(i, field)| > 0 && MemberKey(i, field)[0] == 'P'
  {
  }

  /** Different indices or different fields give different member keys. */
  lemma MemberKeyInjective(i: nat, f: string, j: nat, g: string)
    requires MemberKey(i, f) == MemberKey(j, g)
    ensures i == j && f == g
  {
    var p := "Parameters.member.";
    var a, b := DecimalString(i), DecimalString(j);
    var x, y := a + "." + f, b + "." + g;
    assert MemberKey(i, f) == p + x;
    assert MemberKey(j, g) == p + y;
    assert x == (p + x)[|p|..];
    assert y == (p + y)[|p|..];
    assert x == y;
    assert |a| == |b| by {
      // The digit run ends at the first '.', so a shorter run would put a
      // '.' where the longer one still has a digit.
      assert x[|a|] == '.' && y[|b|] == '.';
      assert !IsDigit('.');
    }
    assert a == x[..|a|] && b == y[..|b|];
    assert f == x[|a| + 1..] && g == y[|b| + 1..];
    DecimalStringInjective(i, j);
  }

  /**
    The entries that the `enumerate(parameters)` loop of `create_stack`
    writes: the pair at position i - 1 becomes member i.
   */
  function ParameterMembers(ps: seq<(Value, Value)>): Params
    decreases |ps|
  {
    if ps == [] then
      map[]
    else
      var n := |ps|;
      ParameterMembers(ps[..n - 1])[MemberKey(n, KeyField) := ps[n - 1].0][MemberKey(n, ValueField) := ps[n - 1].1]
  }

  /** A single pair becomes member 1. */
  lemma FirstMember(key: Value, value: Value)
    ensures ParameterMembers([(key, value)]) == map[
      "Parameters.member.1.ParameterKey" := key,
      "Parameters.member.1.ParameterValue" := value]
  {
    assert DecimalString(1) == "1";
    assert MemberKey(1, KeyField) == "Parameters.member.1.ParameterKey";
    assert MemberKey(1, ValueField) == "Parameters.member.1.ParameterValue";
    assert [(key, value)][..0] == [];
  }

  /** Only members 1..n appear in the series for n pairs. */
  lemma {:induction false} ParameterMembersOnly(ps: seq<(Value, Value)>)
    ensures forall k :: k in ParameterMembers(ps) ==> IsMemberKey(k, |ps|)
    decreases |ps|
  {
    if ps != [] {
      var n := |ps|;
      ParameterMembersOnly(ps[..n - 1]);
      forall k | k in ParameterMembers(ps)
        ensures IsMemberKey(k, n)
      {
        if k != MemberKey(n, KeyField) && k != MemberKey(n, ValueField) {
          assert IsMemberKey(k, n - 1);
        }
      }
    }
  }

  /** No member outside 1..n appears in the series for n pairs. */
  lemma MemberOutOfRange(ps: seq<(Value, Value)>, j: nat, f: string)
    requires j < 1 || j > |ps|
    ensures MemberKey(j, f) !in ParameterMembers(ps)
  {
    ParameterMembersOnly(ps);
    if MemberKey(j, f) in ParameterMembers(ps) {
      var i :| 1 <= i <= |ps| && (MemberKey(j, f) == MemberKey(i, KeyField) || MemberKey(j, f) == MemberKey(i, ValueField));
      if MemberKey(j, f) == MemberKey(i, KeyField) {
        MemberKeyInjective(j, f, i, KeyField);
      } else {
        MemberKeyInjective(j, f, i, ValueField);
      }
    }
  }

  /** The two entries of member n differ from each other and from those of every earlier member. */
  lemma LastMemberKeysFresh(i: nat, n: nat)
    requires 1 <= i < n
    ensures MemberKey(i, KeyField) != MemberKey(n, KeyField) && MemberKey(i, KeyField) != MemberKey(n, ValueField)
    ensures MemberKey(i, ValueField) != MemberKey(n, KeyField) && MemberKey(i, ValueField) != MemberKey(n, ValueField)
  {
    if MemberKey(i, KeyField) == MemberKey(n, KeyField) { MemberKeyInjective(i, KeyField, n, KeyField); }
    if MemberKey(i, KeyField) == MemberKey(n, ValueField) { MemberKeyInjective(i, KeyField, n, ValueField); }
    if MemberKey(i, ValueField) == MemberKey(n, KeyField) { MemberKeyInjective(i, ValueField, n, KeyField); }
    if MemberKey(i, ValueField) == MemberKey(n, ValueField) { MemberKeyInjective(i, ValueField, n, ValueField); }
  }

  lemma MemberFieldsDiffer(n: nat)
    ensures MemberKey(n, KeyField) != MemberKey(n, ValueField)
  {
    if MemberKey(n, KeyField) == MemberKey(n, ValueField) {
      MemberKeyInjective(n, KeyField, n, ValueField);
    }
  }

  /** Member i holds the key and the value of the pair at position i - 1. */
  lemma {:induction false} ParameterMembersInOrder(ps: seq<(Value, Value)>)
    ensures forall i :: 1 <= i <= |ps| ==>
      && MemberKey(i, KeyField) in ParameterMembers(ps)
      && ParameterMembers(ps)[MemberKey(i, KeyField)] == ps[i - 1].0
      && MemberKey(i, ValueField) in ParameterMembers(ps)
      && ParameterMembers(ps)[MemberKey(i, ValueField)] == ps[i - 1].1
    decreases |ps|
  {
    if ps != [] {
      var n := |ps|;
      var prev := ParameterMembers(ps[..n - 1]);
      ParameterMembersInOrder(ps[..n - 1]);
      MemberFieldsDiffer(n);
      forall i | 1 <= i <= n
        ensures MemberKey(i, KeyField) in ParameterMembers(ps)
        ensures ParameterMembers(ps)[MemberKey(i, KeyField)] == ps[i - 1].0
        ensures MemberKey(i, ValueField) in ParameterMembers(ps)
        ensures ParameterMembers(ps)[MemberKey(i, ValueField)] == ps[i - 1].1
      {
        if i < n {
          LastMemberKeysFresh(i, n);
          assert ps[..n - 1][i - 1] == ps[i - 1];
        }
      }
    }
  }

  /** n pairs give exactly 2n entries, so no entry overwrites another. */
  lemma {:induction false} ParameterMembersCount(ps: seq<(Value, Value)>)
    ensures |ParameterMembers(ps)| == 2 * |ps|
    decreases |ps|
  {
    if ps != [] {
      var n := |ps|;
      ParameterMembersCount(ps[..n - 1]);
      MemberOutOfRange(ps[..n - 1], n, KeyField);
      MemberOutOfRange(ps[..n - 1], n, ValueField);
      MemberFieldsDiffer(n);
    }
  }

  /**
    For n pairs the series holds exactly 2n keys: members 1..n, each with
    the key and the value of the pair at that position, and no other member.
   */
  lemma ParameterMembersExact(ps: seq<(Value, Value)>)
    ensures forall i :: 1 <= i <= |ps| ==>
      && MemberKey(i, KeyField) in ParameterMembers(ps)
      && ParameterMembers(ps)[MemberKey(i, KeyField)] == ps[i - 1].0
      && MemberKey(i, ValueField) in ParameterMembers(ps)
      && ParameterMembers(ps)[MemberKey(i, ValueField)] == ps[i - 1].1
    ensures forall k :: k in ParameterMembers(ps) ==> IsMemberKey(k, |ps|)
    ensures forall j: nat, f: string :: j < 1 || j > |ps| ==> MemberKey(j, f) !in ParameterMembers(ps)
    ensures |ParameterMembers(ps)| == 2 * |ps|
  {
    ParameterMembersInOrder(ps);
    ParameterMembersOnly(ps);
    ParameterMembersCount(ps);
    forall j: nat, f: string | j < 1 || j > |ps|
      ensures MemberKey(j, f) !in ParameterMembers(ps)
    {
      MemberOutOfRange(ps, j, f);
    }
  }
}
