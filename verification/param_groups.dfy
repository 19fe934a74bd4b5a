/** `get_param_groups`: splits the model's trainable parameters into a group
    that receives weight decay and a group that does not. */
module ParamGroups {
  import opened Py

  /** One entry of `named_parameters()`: its dotted name, whether it requires
      a gradient, and the parameter itself (left abstract). */
  datatype NamedParam<P> = NamedParam(name: string, requiresGrad: bool, param: P)

  /** An optimizer parameter group: its parameters and, when present, the
      `weight_decay` that overrides the optimizer's default. */
  datatype GroupSpec<P> = GroupSpec(params: seq<NamedParam<P>>, weightDecay: Option<real>)

  /** Name fragments that exempt a parameter from weight decay. */
  const NonDecayNames: seq<string> := ["norm", "bias", "embedding.weight"]

  /** `any(i in name for i in non_decay_names)`: some fragment occurs in
      the name at some offset. */
  function IsNonDecayName(name: string): (b: bool)
    ensures b <==> exists i, k :: 0 <= i < |NonDecayNames| && OccursAt(name, NonDecayNames[i], k)
  {
    FragmentsOccur(name);
    exists i | 0 <= i < |NonDecayNames| :: Contains(name, NonDecayNames[i])
  }

  lemma FragmentsOccur(name: string)
    ensures forall i :: 0 <= i < |NonDecayNames| ==>
      (Contains(name, NonDecayNames[i]) <==> exists k :: OccursAt(name, NonDecayNames[i], k))
  {
    forall i | 0 <= i < |NonDecayNames|
      ensures Contains(name, NonDecayNames[i]) <==> exists k :: OccursAt(name, NonDecayNames[i], k)
    {
      ContainsIffOccurs(name, NonDecayNames[i]);
    }
  }

  predicate InDecayGroup<P>(p: NamedParam<P>) {
    p.requiresGrad && !IsNonDecayName(p.name)
  }

  predicate InNonDecayGroup<P>(p: NamedParam<P>) {
    p.requiresGrad && IsNonDecayName(p.name)
  }

  predicate Trainable<P>(p: NamedParam<P>) {
    p.requiresGrad
  }

  /** Reference selection: the elements of `s` satisfying `f`, in order. */
  function Filter<T>(s: seq<T>, f: T -> bool): (r: seq<T>)
    ensures |r| <= |s|
  {
    if |s| == 0 then [] else Filter(s[..|s| - 1], f) + (if f(s[|s| - 1]) then [s[|s| - 1]] else [])
  }

  /** `a` is `b` with some elements deleted: relative order is kept. */
  predicate IsSubsequence<T(==)>(a: seq<T>, b: seq<T>)
    decreases |b|
  {
    if |a| == 0 then true
    else if |b| == 0 then false
    else if a[|a| - 1] == b[|b| - 1] then IsSubsequence(a[..|a| - 1], b[..|b| - 1])
    else IsSubsequence(a, b[..|b| - 1])
  }

  /** `get_param_groups`: walks the parameters in order and appends each
      trainable one to the non-decay group when its name mentions a norm, a
      bias or the embedding weight, and to the decay group otherwise. The
      second group carries `weight_decay = 0.0`; the first uses the default. */
  method GetParamGroups<P>(named: seq<NamedParam<P>>) returns (groups: seq<GroupSpec<P>>)
    ensures |groups| == 2
    ensures groups[0].weightDecay.None? && groups[1].weightDecay == Some(0.0)
    ensures groups[0].params == Filter(named, InDecayGroup)
    ensures groups[1].params == Filter(named, InNonDecayGroup)
  {
    var decay: seq<NamedParam<P>> := [];
    var nonDecay: seq<NamedParam<P>> := [];
    var i := 0;
    while i < |named|
      invariant 0 <= i <= |named|
      invariant decay == Filter(named[..i], InDecayGroup)
      invariant nonDecay == Filter(named[..i], InNonDecayGroup)
    {
      var p := named[i];
      assert named[..i + 1][..i] == named[..i];
      if p.requiresGrad {
        if IsNonDecayName(p.name) {
          nonDecay := nonDecay + [p];
        } else {
          decay := decay + [p];
        }
      }
      i := i + 1;
    }
    assert named[..i] == named;
    groups := [GroupSpec(decay, None), GroupSpec(nonDecay, Some(0.0))];
  }

  lemma {:induction false} FilterMembership<T>(s: seq<T>, f: T -> bool, x: T)
    ensures x in Filter(s, f) <==> x in s && f(x)
  {
    if |s| > 0 {
      FilterMembership(s[..|s| - 1], f, x);
      assert s == s[..|s| - 1] + [s[|s| - 1]];
    }
  }

  lemma {:induction false} FilterIsSubsequence<T>(s: seq<T>, f: T -> bool)
    ensures IsSubsequence(Filter(s, f), s)
  {
    if |s| > 0 {
      var init := s[..|s| - 1];
      FilterIsSubsequence(init, f);
      assert init + [s[|s| - 1]] == s;
      if f(s[|s| - 1]) {
        var r := Filter(s, f);
        assert r[..|r| - 1] == Filter(init, f);
      } else {
        assert Filter(s, f) == Filter(init, f);
        SubsequenceExtend(Filter(init, f), init, s[|s| - 1]);
      }
    }
  }

  /** Appending to the larger sequence keeps a subsequence a subsequence. */
  lemma {:induction false} SubsequenceExtend<T>(a: seq<T>, b: seq<T>, x: T)
    requires IsSubsequence(a, b)
    ensures IsSubsequence(a, b + [x])
    decreases |b|, 1
  {
    assert (b + [x])[..|b|] == b;
    if |a| > 0 && a[|a| - 1] == x {
      SubsequenceDropLast(a, b);
    }
  }

  /** Dropping the last element of a subsequence keeps it a subsequence. */
  lemma {:induction false} SubsequenceDropLast<T>(a: seq<T>, b: seq<T>)
    requires |a| > 0 && IsSubsequence(a, b)
    ensures IsSubsequence(a[..|a| - 1], b)
    decreases |b|, 0
  {
    var a', b' := a[..|a| - 1], b[..|b| - 1];
    assert b' + [b[|b| - 1]] == b;
    if a[|a| - 1] == b[|b| - 1] {
      SubsequenceExtend(a', b', b[|b| - 1]);
    } else {
      SubsequenceDropLast(a, b');
      SubsequenceExtend(a', b', b[|b| - 1]);
    }
  }

  /** The two groups partition the trainable parameters: together they hold
      each trainable entry exactly as often as the input does, and no other. */
  lemma {:induction false} GroupsPartitionTrainable<P>(named: seq<NamedParam<P>>)
    ensures multiset(Filter(named, InDecayGroup)) + multiset(Filter(named, InNonDecayGroup))
         == multiset(Filter(named, Trainable))
  {
    if |named| > 0 {
      GroupsPartitionTrainable(named[..|named| - 1]);
    }
  }

  /** Membership, both directions: an entry lands in the non-decay group iff
      it is trainable and its name contains a non-decay fragment, in the decay
      group iff it is trainable and its name contains none, and entries that
      do not require a gradient land in neither. */
  lemma GroupMembership<P>(named: seq<NamedParam<P>>, p: NamedParam<P>)
    ensures p in Filter(named, InNonDecayGroup) <==>
      p in named && p.requiresGrad &&
      (Contains(p.name, "norm") || Contains(p.name, "bias") || Contains(p.name, "embedding.weight"))
    ensures p in Filter(named, InDecayGroup) <==>
      p in named && p.requiresGrad &&
      !(Contains(p.name, "norm") || Contains(p.name, "bias") || Contains(p.name, "embedding.weight"))
    ensures !p.requiresGrad ==> p !in Filter(named, InNonDecayGroup) && p !in Filter(named, InDecayGroup)
  {
    FilterMembership(named, InNonDecayGroup, p);
    FilterMembership(named, InDecayGroup, p);
    assert IsNonDecayName(p.name) <==>
      Contains(p.name, NonDecayNames[0]) || Contains(p.name, NonDecayNames[1]) || Contains(p.name, NonDecayNames[2]);
  }

  /** Both groups keep the original relative order of the parameters. */
  lemma GroupsKeepOrder<P>(named: seq<NamedParam<P>>)
    ensures IsSubsequence(Filter(named, InDecayGroup), named)
    ensures IsSubsequence(Filter(named, InNonDecayGroup), named)
  {
    FilterIsSubsequence(named, InDecayGroup);
    FilterIsSubsequence(named, InNonDecayGroup);
  }
}
