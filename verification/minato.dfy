/** The Minato optimizer: sign-of-momentum steps with decoupled weight decay.
    Every element is a `real`, an idealisation of the source's floating point;
    a tensor is the `seq<real>` of its elements. Only the eager
    (non-capturable) path is modelled. */
module Minato {
  import opened Py
  import ParamGroups

  /** The clamp denominator `0.0 + 1e-15`. */
  const Epsilon: real := 0.000000000000001

  /** The hyperparameters of one parameter group. */
  datatype Hyper = Hyper(lr: real, beta: real, weightDecay: real, maximize: bool)

  /** `Minato.__init__` validation: the learning rate, then beta, then the
      weight decay, each raising ValueError when out of range. */
  function ValidateHyper(lr: real, beta: real, weightDecay: real, maximize: bool): (r: Result<Hyper>)
    ensures r.Ok? <==> 0.0 <= lr && 0.0 <= beta < 1.0 && 0.0 <= weightDecay
    ensures r.Ok? ==> r.value == Hyper(lr, beta, weightDecay, maximize)
    ensures lr < 0.0 ==> r == Err(InvalidLearningRate)
    ensures 0.0 <= lr && !(0.0 <= beta < 1.0) ==> r == Err(InvalidBeta)
    ensures 0.0 <= lr && 0.0 <= beta < 1.0 && weightDecay < 0.0 ==> r == Err(InvalidWeightDecay)
  {
    if !(0.0 <= lr) then Err(InvalidLearningRate)
    else if !(0.0 <= beta < 1.0) then Err(InvalidBeta)
    else if !(0.0 <= weightDecay) then Err(InvalidWeightDecay)
    else Ok(Hyper(lr, beta, weightDecay, maximize))
  }

  function Abs(x: real): real {
    if x < 0.0 then -x else x
  }

  /** `torch.sign`. */
  function Sign(x: real): real {
    if x > 0.0 then 1.0 else if x < 0.0 then -1.0 else 0.0
  }

  /** `(|m| / 1e-15).clamp(None, 1)`: zero exactly at zero momentum and
      saturated at 1 once the momentum reaches the epsilon. */
  function Ratio(m: real): (r: real)
    ensures 0.0 <= r <= 1.0
    ensures r == 0.0 <==> m == 0.0
    ensures Abs(m) >= Epsilon ==> r == 1.0
  {
    MinReal(Abs(m) / Epsilon, 1.0)
  }

  datatype Elem = Elem(param: real, expAvg: real)

  /** The signed step `-lr * sign(m) * ratio(m)` added to the decayed
      parameter. */
  function SignStep(lr: real, m: real): (r: real)
    ensures m == 0.0 ==> r == 0.0
    ensures lr >= 0.0 && m > 0.0 ==> -lr <= r <= 0.0
    ensures lr >= 0.0 && m < 0.0 ==> 0.0 <= r <= lr
  {
    SignStepAgainstMomentum(lr, m);
    -lr * (Sign(m) * Ratio(m))
  }

  lemma SignStepAgainstMomentum(lr: real, m: real)
    ensures lr >= 0.0 && m > 0.0 ==> -lr <= -lr * (Sign(m) * Ratio(m)) <= 0.0
    ensures lr >= 0.0 && m < 0.0 ==> 0.0 <= -lr * (Sign(m) * Ratio(m)) <= lr
  {
    if lr >= 0.0 && m != 0.0 {
      var q := Ratio(m);
      assert 0.0 <= lr * q <= lr by {
        assert lr * (1.0 - q) >= 0.0;
      }
    }
  }

  /** The step is at most `lr` in magnitude, vanishes at zero momentum and
      is exactly `lr` against the momentum's sign once it is saturated. */
  lemma SignStepFacts(lr: real, m: real)
    ensures lr >= 0.0 ==> Abs(SignStep(lr, m)) <= lr
    ensures m == 0.0 ==> SignStep(lr, m) == 0.0
    ensures Abs(m) >= Epsilon ==> SignStep(lr, m) == -lr * Sign(m)
  {
    StepWithinLearningRate(lr, Sign(m) * Ratio(m));
    if Abs(m) >= Epsilon {
      assert Ratio(m) == 1.0;
    }
  }

  /** One element of the eager path: decay the parameter by `1 - lr * wd`,
      move the momentum towards the (possibly negated) gradient, then step
      against the momentum's sign by `lr` scaled with `Ratio`. */
  function UpdateElement(h: Hyper, p: real, g: real, m: real): (r: Elem)
    ensures r.expAvg == h.beta * m + (1.0 - h.beta) * (if h.maximize then -g else g)
    ensures h.lr >= 0.0 ==> Abs(r.param - p * (1.0 - h.lr * h.weightDecay)) <= h.lr
    ensures r.expAvg == 0.0 ==> r.param == p * (1.0 - h.lr * h.weightDecay)
    ensures Abs(r.expAvg) >= Epsilon ==> r.param == p * (1.0 - h.lr * h.weightDecay) - h.lr * Sign(r.expAvg)
  {
    var grad := if h.maximize then -g else g;
    var decayed := p * (1.0 - h.lr * h.weightDecay);
    var m' := h.beta * m + (1.0 - h.beta) * grad;
    SignStepFacts(h.lr, m');
    Elem(decayed + SignStep(h.lr, m'), m')
  }

  lemma StepWithinLearningRate(lr: real, s: real)
    requires -1.0 <= s <= 1.0
    ensures lr >= 0.0 ==> Abs(-lr * s) <= lr
  {
    if lr >= 0.0 {
      if s >= 0.0 {
        assert lr * s <= lr * 1.0;
      } else {
        assert lr * (-s) <= lr * 1.0;
      }
    }
  }

  /** With `beta = 0` the momentum is the gradient itself, and a gradient of
      at least epsilon moves the decayed parameter by exactly `lr` against
      its sign. */
  lemma ZeroBetaFollowsGradient(h: Hyper, p: real, g: real, m: real)
    requires h.beta == 0.0 && !h.maximize
    ensures UpdateElement(h, p, g, m).expAvg == g
    ensures Abs(g) >= Epsilon ==>
      UpdateElement(h, p, g, m).param == p * (1.0 - h.lr * h.weightDecay) - h.lr * Sign(g)
  {
  }

  /** Zero gradient on zero momentum isolates the decay: the parameter is
      only multiplied by `1 - lr * wd`. */
  lemma ZeroGradientIsPureDecay(h: Hyper, p: real)
    ensures UpdateElement(h, p, 0.0, 0.0) == Elem(p * (1.0 - h.lr * h.weightDecay), 0.0)
  {
  }

  /** One step with `g = 1`, `beta = 0.9`, `lr = 0.1`, no decay, from zero
      momentum: the momentum becomes 0.1 and the parameter drops by 0.1. */
  lemma SingleStepExample(p: real)
    ensures UpdateElement(Hyper(0.1, 0.9, 0.0, false), p, 1.0, 0.0) == Elem(p - 0.1, 0.1)
  {
  }

  function Zeros(n: nat): (z: seq<real>)
    ensures |z| == n && forall i :: 0 <= i < n ==> z[i] == 0.0
  {
    seq(n, _ => 0.0)
  }

  /** The element rule applied to whole tensors of one shape. */
  function UpdateTensor(h: Hyper, p: seq<real>, g: seq<real>, m: seq<real>): (r: (seq<real>, seq<real>))
    requires |g| == |p| && |m| == |p|
    ensures |r.0| == |p| && |r.1| == |p|
    ensures forall i :: 0 <= i < |p| ==> Elem(r.0[i], r.1[i]) == UpdateElement(h, p[i], g[i], m[i])
  {
    (seq(|p|, i requires 0 <= i < |p| => UpdateElement(h, p[i], g[i], m[i]).param),
     seq(|p|, i requires 0 <= i < |p| => UpdateElement(h, p[i], g[i], m[i]).expAvg))
  }

  datatype Grad = Dense(values: seq<real>) | Sparse

  /** A parameter tensor and its `.grad`, which may be absent. */
  datatype Param = Param(value: seq<real>, grad: Option<Grad>)

  /** `self.state[p]`: the step counter and the momentum buffer `exp_avg`. */
  datatype ParamState = ParamState(step: nat, expAvg: seq<real>)

  datatype Group = Group(hyper: Hyper, params: seq<Param>)

  /** Per-parameter state is keyed by (group index, position in group). */
  type Key = (nat, nat)

  datatype Optimizer = Optimizer(defaults: Hyper, groups: seq<Group>, state: map<Key, ParamState>)

  /** A group as handed to the constructor. Each option it carries
      overrides the constructor's default for that group (torch's
      `add_param_group` fills only the missing ones); the overrides are
      not validated. */
  datatype GroupOptions = GroupOptions(params: seq<Param>, lr: Option<real>, beta: Option<real>,
                                       weightDecay: Option<real>, maximize: Option<bool>)

  /** The hyperparameters of a group: its own options, the defaults for the
      rest. */
  function GroupHyper(o: GroupOptions, defaults: Hyper): (h: Hyper) {
    Hyper(o.lr.GetOr(defaults.lr), o.beta.GetOr(defaults.beta),
          o.weightDecay.GetOr(defaults.weightDecay), o.maximize.GetOr(defaults.maximize))
  }

  predicate IsDense(p: Param) {
    p.grad.Some? && p.grad.value.Dense?
  }

  predicate IsSparse(p: Param) {
    p.grad == Some(Sparse)
  }

  /** A dense gradient has the parameter's shape. */
  predicate ParamFits(p: Param) {
    IsDense(p) ==> |p.grad.value.values| == |p.value|
  }

  function Lookup(st: map<Key, ParamState>, key: Key): Option<ParamState> {
    if key in st then Some(st[key]) else None
  }

  ghost predicate ParamsFit(groups: seq<Group>) {
    forall g, k :: 0 <= g < |groups| && 0 <= k < |groups[g].params| ==> ParamFits(groups[g].params[k])
  }

  /** Every state entry belongs to an existing parameter and its momentum
      buffer has that parameter's shape. */
  ghost predicate StateFits(groups: seq<Group>, st: map<Key, ParamState>) {
    forall key :: key in st ==>
      key.0 < |groups| && key.1 < |groups[key.0].params| &&
      |st[key].expAvg| == |groups[key.0].params[key.1].value|
  }

  ghost predicate WellFormed(o: Optimizer) {
    ParamsFit(o.groups) && StateFits(o.groups, o.state)
  }

  /** `Minato(params, lr, beta, weight_decay, maximize=...)`: validates the
      defaults, then the base optimizer rejects an empty parameter list and
      fills every group's unspecified options from the defaults. Options a
      group sets itself are kept as given, without the checks. State starts
      empty. */
  function NewMinato(options: seq<GroupOptions>, lr: real, beta: real, weightDecay: real, maximize: bool)
    : (r: Result<Optimizer>)
    ensures r.Ok? <==> 0.0 <= lr && 0.0 <= beta < 1.0 && 0.0 <= weightDecay && |options| > 0
    ensures ValidateHyper(lr, beta, weightDecay, maximize).Err? ==>
      r == ValidateHyper(lr, beta, weightDecay, maximize).PropagateFailure()
    ensures ValidateHyper(lr, beta, weightDecay, maximize).Ok? && |options| == 0 ==> r == Err(EmptyParamList)
    ensures r.Ok? ==>
      && r.value.state == map[]
      && |r.value.groups| == |options|
      && forall i :: 0 <= i < |options| ==>
           && r.value.groups[i].params == options[i].params
           && r.value.groups[i].hyper ==
                Hyper(options[i].lr.GetOr(lr), options[i].beta.GetOr(beta),
                      options[i].weightDecay.GetOr(weightDecay), options[i].maximize.GetOr(maximize))
  {
    var defaults :- ValidateHyper(lr, beta, weightDecay, maximize);
    if |options| == 0 then Err(EmptyParamList)
    else
      Ok(Optimizer(defaults,
        seq(|options|, i requires 0 <= i < |options| =>
          Group(GroupHyper(options[i], defaults), options[i].params)),
        map[]))
  }

  /** The groups `get_param_groups` returns, as constructor options: each
      group's parameters, with its `weight_decay` as the only override. */
  function ParamGroupOptions(groups: seq<ParamGroups.GroupSpec<Param>>): (r: seq<GroupOptions>)
    ensures |r| == |groups|
    ensures forall i :: 0 <= i < |groups| ==>
      && r[i].weightDecay == groups[i].weightDecay
      && r[i].lr.None? && r[i].beta.None? && r[i].maximize.None?
      && |r[i].params| == |groups[i].params|
      && forall k :: 0 <= k < |groups[i].params| ==> r[i].params[k] == groups[i].params[k].param
  {
    seq(|groups|, i requires 0 <= i < |groups| =>
      GroupOptions(seq(|groups[i].params|, k requires 0 <= k < |groups[i].params| => groups[i].params[k].param),
                   None, None, groups[i].weightDecay, None))
  }

  /** The two groups of `get_param_groups` are never an empty parameter
      list, so building Minato on them fails only on its own checks; the
      first group then uses the default weight decay and the second none. */
  lemma ParamGroupsBuildMinato(groups: seq<ParamGroups.GroupSpec<Param>>, lr: real, beta: real,
                               weightDecay: real, maximize: bool)
    requires |groups| == 2
    requires groups[0].weightDecay.None? && groups[1].weightDecay == Some(0.0)
    ensures NewMinato(ParamGroupOptions(groups), lr, beta, weightDecay, maximize).Ok? <==>
      0.0 <= lr && 0.0 <= beta < 1.0 && 0.0 <= weightDecay
    ensures var r := NewMinato(ParamGroupOptions(groups), lr, beta, weightDecay, maximize);
      r.Ok? ==>
        && |r.value.groups| == 2
        && r.value.groups[0].hyper == Hyper(lr, beta, weightDecay, maximize)
        && r.value.groups[1].hyper == Hyper(lr, beta, 0.0, maximize)
  {
  }

  /** Reference semantics of one `step()` for a single parameter without a
      sparse gradient: no gradient leaves parameter and state untouched;
      a dense gradient creates the state lazily (step 0, zero momentum),
      counts the step and applies the element rule. */
  function ParamAfterStep(h: Hyper, p: Param, s: Option<ParamState>): (r: (Param, Option<ParamState>))
    requires ParamFits(p) && !IsSparse(p)
    requires s.Some? ==> |s.value.expAvg| == |p.value|
    ensures r.0.grad == p.grad && |r.0.value| == |p.value|
    ensures p.grad.None? ==> r == (p, s)
    ensures IsDense(p) ==>
      && r.1.Some?
      && r.1.value.step == (if s.Some? then s.value.step else 0) + 1
      && |r.1.value.expAvg| == |p.value|
      && forall i :: 0 <= i < |p.value| ==>
           Elem(r.0.value[i], r.1.value.expAvg[i]) ==
             UpdateElement(h, p.value[i], p.grad.value.values[i], if s.Some? then s.value.expAvg[i] else 0.0)
  {
    match p.grad
    case None => (p, s)
    case Some(Dense(g)) =>
      var st0 := s.GetOr(ParamState(0, Zeros(|p.value|)));
      var (v, m) := UpdateTensor(h, p.value, g, st0.expAvg);
      (p.(value := v), Some(ParamState(st0.step + 1, m)))
  }

  /** The first half of `Minato.step` for one group, from position `j`: skip
      parameters without a gradient, stop at a sparse one (the RuntimeError),
      and create missing state for the dense ones met before it. */
  datatype Collected = Collected(state: map<Key, ParamState>, sparse: bool)

  function InitGroup(ps: seq<Param>, gi: nat, j: nat, st: map<Key, ParamState>): (r: Collected)
    requires j <= |ps|
    decreases |ps| - j
    ensures r.sparse <==> exists k :: j <= k < |ps| && IsSparse(ps[k])
    ensures forall key :: key in st ==> key in r.state && r.state[key] == st[key]
    ensures forall key :: key in r.state && key !in st ==>
      key.0 == gi && j <= key.1 < |ps| && IsDense(ps[key.1]) &&
      r.state[key] == ParamState(0, Zeros(|ps[key.1].value|))
    ensures !r.sparse ==> forall k :: j <= k < |ps| && IsDense(ps[k]) ==> (gi, k) in r.state
  {
    if j == |ps| then Collected(st, false)
    else if IsSparse(ps[j]) then Collected(st, true)
    else if IsDense(ps[j]) then
      var st' := if (gi, j) in st then st else st[(gi, j) := ParamState(0, Zeros(|ps[j].value|))];
      InitGroup(ps, gi, j + 1, st')
    else InitGroup(ps, gi, j + 1, st)
  }

  /** What collecting a whole group yields: sparse exactly when some
      gradient is, every old entry kept, and new entries only the zero state
      of this group's dense parameters, all of which have one when no
      gradient is sparse. */
  ghost predicate CollectedFrom(ps: seq<Param>, gi: nat, st: map<Key, ParamState>, c: Collected) {
    && (c.sparse <==> exists k :: 0 <= k < |ps| && IsSparse(ps[k]))
    && (forall key :: key in st ==> key in c.state && c.state[key] == st[key])
    && (forall key :: key in c.state && key !in st ==>
          key.0 == gi && key.1 < |ps| && IsDense(ps[key.1]) &&
          c.state[key] == ParamState(0, Zeros(|ps[key.1].value|)))
    && (!c.sparse ==> forall k :: 0 <= k < |ps| && IsDense(ps[k]) ==> (gi, k) in c.state)
  }

  /** What the update pass needs from position `j` on: no sparse gradient,
      state for every dense parameter, and every state of the parameter's
      shape. */
  ghost predicate UpdateReady(ps: seq<Param>, gi: nat, j: nat, st: map<Key, ParamState>) {
    && j <= |ps|
    && (forall k :: j <= k < |ps| ==> ParamFits(ps[k]) && !IsSparse(ps[k]))
    && (forall k :: j <= k < |ps| && IsDense(ps[k]) ==> (gi, k) in st)
    && (forall k :: j <= k < |ps| && (gi, k) in st ==> |st[(gi, k)].expAvg| == |ps[k].value|)
  }

  /** The update pass from position `j`: positions before `j` are untouched,
      every later one follows the reference, and only this group's entries
      from `j` on may change (no entry is added or removed). */
  ghost predicate UpdatedFrom(h: Hyper, ps: seq<Param>, gi: nat, j: nat, st: map<Key, ParamState>,
                              r: (seq<Param>, map<Key, ParamState>))
    requires UpdateReady(ps, gi, j, st)
  {
    && |r.0| == |ps|
    && (forall k :: 0 <= k < j ==> r.0[k] == ps[k])
    && (forall k :: j <= k < |ps| ==>
          (r.0[k], Lookup(r.1, (gi, k))) == ParamAfterStep(h, ps[k], Lookup(st, (gi, k))))
    && r.1.Keys == st.Keys
    && (forall key :: key in st && (key.0 != gi || key.1 < j || key.1 >= |ps|) ==> r.1[key] == st[key])
  }

  /** Position `j` updated by the reference, the rest as given. */
  function NextStep(h: Hyper, ps: seq<Param>, gi: nat, j: nat, st: map<Key, ParamState>)
    : (r: (seq<Param>, map<Key, ParamState>))
    requires UpdateReady(ps, gi, j, st) && j < |ps|
    ensures UpdateReady(r.0, gi, j + 1, r.1)
  {
    var (p', s') := ParamAfterStep(h, ps[j], Lookup(st, (gi, j)));
    var st' := if s'.Some? then st[(gi, j) := s'.value] else st;
    NextStepReady(ps, gi, j, st, p', st');
    (ps[j := p'], st')
  }

  lemma NextStepReady(ps: seq<Param>, gi: nat, j: nat, st: map<Key, ParamState>, p': Param, st': map<Key, ParamState>)
    requires UpdateReady(ps, gi, j, st) && j < |ps|
    requires forall key :: key != (gi, j) ==> (key in st' <==> key in st) && (key in st ==> st'[key] == st[key])
    ensures UpdateReady(ps[j := p'], gi, j + 1, st')
  {
    forall k | j + 1 <= k < |ps| && (gi, k) in st'
      ensures |st'[(gi, k)].expAvg| == |ps[j := p'][k].value|
    {
      assert (gi, k) != (gi, j);
    }
  }

  /** The second half, `_single_tensor_minato` over the collected parameters
      of one group from position `j`. */
  function UpdateGroup(h: Hyper, ps: seq<Param>, gi: nat, j: nat, st: map<Key, ParamState>)
    : (r: (seq<Param>, map<Key, ParamState>))
    requires UpdateReady(ps, gi, j, st)
    decreases |ps| - j
    ensures UpdatedFrom(h, ps, gi, j, st, r)
  {
    if j == |ps| then (ps, st)
    else
      var next := NextStep(h, ps, gi, j, st);
      var r := UpdateGroup(h, next.0, gi, j + 1, next.1);
      UpdateGroupStep(h, ps, gi, j, st, r);
      r
  }

  lemma UpdateGroupStep(h: Hyper, ps: seq<Param>, gi: nat, j: nat, st: map<Key, ParamState>,
                        r: (seq<Param>, map<Key, ParamState>))
    requires UpdateReady(ps, gi, j, st) && j < |ps|
    requires UpdatedFrom(h, NextStep(h, ps, gi, j, st).0, gi, j + 1, NextStep(h, ps, gi, j, st).1, r)
    ensures UpdatedFrom(h, ps, gi, j, st, r)
  {
    var (ps', st') := NextStep(h, ps, gi, j, st);
    var ref := ParamAfterStep(h, ps[j], Lookup(st, (gi, j)));
    assert ps' == ps[j := ref.0];
    assert st' == if ref.1.Some? then st[(gi, j) := ref.1.value] else st;
    assert r.0[j] == ref.0;
    assert Lookup(r.1, (gi, j)) == ref.1;
    forall k | j < k < |ps|
      ensures (r.0[k], Lookup(r.1, (gi, k))) == ParamAfterStep(h, ps[k], Lookup(st, (gi, k)))
    {
      assert ps'[k] == ps[k];
      assert Lookup(st', (gi, k)) == Lookup(st, (gi, k));
    }
  }

  datatype GroupOutcome = GroupOutcome(params: seq<Param>, state: map<Key, ParamState>, sparse: bool)

  /** What one group's step needs: well-shaped parameters, and every
      existing state entry of the group of its parameter's shape. */
  ghost predicate GroupFits(ps: seq<Param>, gi: nat, st: map<Key, ParamState>) {
    && (forall k :: 0 <= k < |ps| ==> ParamFits(ps[k]))
    && (forall k :: 0 <= k < |ps| && (gi, k) in st ==> |st[(gi, k)].expAvg| == |ps[k].value|)
  }

  /** The outcome of one group's step: sparse exactly when some gradient is
      sparse, parameters then untouched; shapes kept; other groups' entries
      untouched and new entries only for this group; and, without a sparse
      gradient, every parameter and its state as the reference says. */
  ghost predicate GroupStepped(h: Hyper, ps: seq<Param>, gi: nat, st: map<Key, ParamState>, r: GroupOutcome)
    requires GroupFits(ps, gi, st)
  {
    && (r.sparse <==> exists k :: 0 <= k < |ps| && IsSparse(ps[k]))
    && |r.params| == |ps|
    && (forall k :: 0 <= k < |ps| ==> r.params[k].grad == ps[k].grad && |r.params[k].value| == |ps[k].value|)
    && (r.sparse ==> r.params == ps)
    && (forall key: Key :: key.0 != gi ==> (key in r.state <==> key in st) && (key in st ==> r.state[key] == st[key]))
    && (forall key :: key in r.state && key !in st ==> key.0 == gi && key.1 < |ps|)
    && (forall k :: 0 <= k < |ps| && (gi, k) in r.state ==> |r.state[(gi, k)].expAvg| == |ps[k].value|)
    && (!r.sparse ==> forall k :: 0 <= k < |ps| ==>
          (r.params[k], Lookup(r.state, (gi, k))) == ParamAfterStep(h, ps[k], Lookup(st, (gi, k))))
  }

  /** `Minato.step` for one group: collect (skip, raise on sparse, lazy
      init), then update the collected parameters. */
  function StepGroup(h: Hyper, ps: seq<Param>, gi: nat, st: map<Key, ParamState>): (r: GroupOutcome)
    requires GroupFits(ps, gi, st)
    ensures GroupStepped(h, ps, gi, st, r)
  {
    var c := InitGroup(ps, gi, 0, st);
    assert CollectedFrom(ps, gi, st, c);
    if c.sparse then
      SparseCollected(h, ps, gi, st, c);
      GroupOutcome(ps, c.state, true)
    else
      CollectedReady(ps, gi, st, c);
      var up := UpdateGroup(h, ps, gi, 0, c.state);
      StepGroupMatchesReference(h, ps, gi, st, c, up);
      GroupOutcome(up.0, up.1, false)
  }

  lemma SparseCollected(h: Hyper, ps: seq<Param>, gi: nat, st: map<Key, ParamState>, c: Collected)
    requires GroupFits(ps, gi, st)
    requires CollectedFrom(ps, gi, st, c) && c.sparse
    ensures GroupStepped(h, ps, gi, st, GroupOutcome(ps, c.state, true))
  {
  }

  lemma CollectedReady(ps: seq<Param>, gi: nat, st: map<Key, ParamState>, c: Collected)
    requires GroupFits(ps, gi, st)
    requires CollectedFrom(ps, gi, st, c) && !c.sparse
    ensures UpdateReady(ps, gi, 0, c.state)
  {
    forall k | 0 <= k < |ps| && (gi, k) in c.state
      ensures |c.state[(gi, k)].expAvg| == |ps[k].value|
    {
      if (gi, k) !in st {
        assert c.state[(gi, k)] == ParamState(0, Zeros(|ps[k].value|));
      }
    }
  }

  /** Lazily created state is what `ParamAfterStep` assumes for a missing
      entry, so collecting and then updating agrees with the reference. */
  lemma StepGroupMatchesReference(h: Hyper, ps: seq<Param>, gi: nat, st: map<Key, ParamState>,
                                  c: Collected, up: (seq<Param>, map<Key, ParamState>))
    requires GroupFits(ps, gi, st)
    requires CollectedFrom(ps, gi, st, c) && !c.sparse
    requires UpdateReady(ps, gi, 0, c.state)
    requires UpdatedFrom(h, ps, gi, 0, c.state, up)
    ensures GroupStepped(h, ps, gi, st, GroupOutcome(up.0, up.1, false))
  {
    forall k | 0 <= k < |ps|
      ensures (up.0[k], Lookup(up.1, (gi, k))) == ParamAfterStep(h, ps[k], Lookup(st, (gi, k)))
    {
      if (gi, k) !in st && IsDense(ps[k]) {
        assert c.state[(gi, k)] == ParamState(0, Zeros(|ps[k].value|));
      } else {
        assert Lookup(c.state, (gi, k)) == Lookup(st, (gi, k));
      }
    }
    forall k | 0 <= k < |ps|
      ensures up.0[k].grad == ps[k].grad && |up.0[k].value| == |ps[k].value|
    {
      var ref := ParamAfterStep(h, ps[k], Lookup(c.state, (gi, k)));
      assert up.0[k] == ref.0;
    }
    forall k | 0 <= k < |ps| && (gi, k) in up.1
      ensures |up.1[(gi, k)].expAvg| == |ps[k].value|
    {
      var ref := ParamAfterStep(h, ps[k], Lookup(c.state, (gi, k)));
      assert Lookup(up.1, (gi, k)) == ref.1;
    }
  }

  datatype StepResult = StepResult(groups: seq<Group>, state: map<Key, ParamState>, error: Option<Error>)

  ghost predicate HasSparseFrom(groups: seq<Group>, gi: nat) {
    exists g, k :: gi <= g < |groups| && 0 <= k < |groups[g].params| && IsSparse(groups[g].params[k])
  }

  /** Same number of groups, same hyperparameters, same group sizes. */
  ghost predicate ShapesKept(groups: seq<Group>, groups': seq<Group>) {
    && |groups'| == |groups|
    && forall g :: 0 <= g < |groups| ==>
         groups'[g].hyper == groups[g].hyper && |groups'[g].params| == |groups[g].params|
  }

  /** The groups before `gi`, and their state entries, are as they were. */
  ghost predicate PrefixUntouched(groups: seq<Group>, st: map<Key, ParamState>,
                                  groups': seq<Group>, st': map<Key, ParamState>, gi: nat)
    requires ShapesKept(groups, groups')
  {
    forall g, k :: 0 <= g < gi && g < |groups| && 0 <= k < |groups[g].params| ==>
      groups'[g].params[k] == groups[g].params[k] && Lookup(st', (g, k)) == Lookup(st, (g, k))
  }

  /** Every parameter from group `gi` on, with its state, is updated as the
      per-parameter reference says. */
  ghost predicate FollowsReference(groups: seq<Group>, st: map<Key, ParamState>,
                                   groups': seq<Group>, st': map<Key, ParamState>, gi: nat)
    requires ShapesKept(groups, groups') && ParamsFit(groups) && StateFits(groups, st)
    requires !HasSparseFrom(groups, gi)
  {
    forall g, k :: gi <= g < |groups| && 0 <= k < |groups[g].params| ==>
      (groups'[g].params[k], Lookup(st', (g, k))) ==
        ParamAfterStep(groups[g].hyper, groups[g].params[k], Lookup(st, (g, k)))
  }

  /** `Minato.step` over the groups from index `gi`. A sparse gradient raises
      after the groups before it were updated and after state was created for
      the dense parameters preceding it in its own group. */
  function StepGroups(groups: seq<Group>, gi: nat, st: map<Key, ParamState>): (r: StepResult)
    requires gi <= |groups|
    requires ParamsFit(groups) && StateFits(groups, st)
    decreases |groups| - gi
    ensures ShapesKept(groups, r.groups)
    ensures ParamsFit(r.groups) && StateFits(r.groups, r.state)
    ensures r.error.None? <==> !HasSparseFrom(groups, gi)
    ensures r.error.Some? ==> r.error.value == SparseGradient
    ensures PrefixUntouched(groups, st, r.groups, r.state, gi)
    ensures r.error.None? ==> FollowsReference(groups, st, r.groups, r.state, gi)
  {
    if gi == |groups| then StepResult(groups, st, None)
    else
      var out := StepGroup(groups[gi].hyper, groups[gi].params, gi, st);
      var groups' := groups[gi := groups[gi].(params := out.params)];
      StepGroupFits(groups, gi, st, out);
      if out.sparse then
        SparseGroupStops(groups, gi, st, out);
        StepResult(groups', out.state, Some(SparseGradient))
      else
        var r := StepGroups(groups', gi + 1, out.state);
        StepGroupsCombine(groups, gi, st, out, r);
        r
  }

  lemma StepGroupFits(groups: seq<Group>, gi: nat, st: map<Key, ParamState>, out: GroupOutcome)
    requires gi < |groups|
    requires ParamsFit(groups) && StateFits(groups, st)
    requires GroupFits(groups[gi].params, gi, st) && GroupStepped(groups[gi].hyper, groups[gi].params, gi, st, out)
    ensures ShapesKept(groups, groups[gi := groups[gi].(params := out.params)])
    ensures ParamsFit(groups[gi := groups[gi].(params := out.params)])
    ensures StateFits(groups[gi := groups[gi].(params := out.params)], out.state)
  {
    var groups' := groups[gi := groups[gi].(params := out.params)];
    forall g, k | 0 <= g < |groups'| && 0 <= k < |groups'[g].params|
      ensures ParamFits(groups'[g].params[k])
    {
      if g == gi {
        assert ParamFits(groups[g].params[k]);
      }
    }
    forall key | key in out.state
      ensures key.0 < |groups'| && key.1 < |groups'[key.0].params|
      ensures |out.state[key].expAvg| == |groups'[key.0].params[key.1].value|
    {
      if key.0 != gi {
        assert key in st;
      }
    }
  }

  lemma SparseGroupStops(groups: seq<Group>, gi: nat, st: map<Key, ParamState>, out: GroupOutcome)
    requires gi < |groups|
    requires ParamsFit(groups) && StateFits(groups, st)
    requires GroupFits(groups[gi].params, gi, st) && GroupStepped(groups[gi].hyper, groups[gi].params, gi, st, out) && out.sparse
    requires ShapesKept(groups, groups[gi := groups[gi].(params := out.params)])
    ensures HasSparseFrom(groups, gi)
    ensures PrefixUntouched(groups, st, groups[gi := groups[gi].(params := out.params)], out.state, gi)
  {
    var k :| 0 <= k < |groups[gi].params| && IsSparse(groups[gi].params[k]);
    forall g, k | 0 <= g < gi && 0 <= k < |groups[g].params|
      ensures Lookup(out.state, (g, k)) == Lookup(st, (g, k))
    {
      assert (g, k).0 != gi;
    }
  }

  lemma StepGroupsCombine(groups: seq<Group>, gi: nat, st: map<Key, ParamState>, out: GroupOutcome, r: StepResult)
    requires gi < |groups|
    requires ParamsFit(groups) && StateFits(groups, st)
    requires GroupFits(groups[gi].params, gi, st) && GroupStepped(groups[gi].hyper, groups[gi].params, gi, st, out) && !out.sparse
    requires ShapesKept(groups, groups[gi := groups[gi].(params := out.params)])
    requires ParamsFit(groups[gi := groups[gi].(params := out.params)])
    requires StateFits(groups[gi := groups[gi].(params := out.params)], out.state)
    requires ShapesKept(groups[gi := groups[gi].(params := out.params)], r.groups)
    requires r.error.None? <==> !HasSparseFrom(groups[gi := groups[gi].(params := out.params)], gi + 1)
    requires PrefixUntouched(groups[gi := groups[gi].(params := out.params)], out.state, r.groups, r.state, gi + 1)
    requires r.error.None? ==>
      FollowsReference(groups[gi := groups[gi].(params := out.params)], out.state, r.groups, r.state, gi + 1)
    ensures ShapesKept(groups, r.groups)
    ensures r.error.None? <==> !HasSparseFrom(groups, gi)
    ensures PrefixUntouched(groups, st, r.groups, r.state, gi)
    ensures r.error.None? ==> FollowsReference(groups, st, r.groups, r.state, gi)
  {
    SparseAfterGroup(groups, gi, out.params);
    CombinePrefix(groups, gi, st, out, r);
    if r.error.None? {
      CombineFollows(groups, gi, st, out, r);
    }
  }

  /** Other groups' state entries are untouched by group `gi`'s step. */
  lemma OtherGroupsKept(groups: seq<Group>, gi: nat, st: map<Key, ParamState>, out: GroupOutcome)
    requires gi < |groups|
    requires ParamsFit(groups) && StateFits(groups, st)
    requires GroupFits(groups[gi].params, gi, st) && GroupStepped(groups[gi].hyper, groups[gi].params, gi, st, out)
    ensures forall key: Key :: key.0 != gi ==> Lookup(out.state, key) == Lookup(st, key)
  {
  }

  lemma CombinePrefix(groups: seq<Group>, gi: nat, st: map<Key, ParamState>, out: GroupOutcome, r: StepResult)
    requires gi < |groups|
    requires ParamsFit(groups) && StateFits(groups, st)
    requires GroupFits(groups[gi].params, gi, st) && GroupStepped(groups[gi].hyper, groups[gi].params, gi, st, out)
    requires ShapesKept(groups, groups[gi := groups[gi].(params := out.params)])
    requires ShapesKept(groups[gi := groups[gi].(params := out.params)], r.groups)
    requires PrefixUntouched(groups[gi := groups[gi].(params := out.params)], out.state, r.groups, r.state, gi + 1)
    ensures ShapesKept(groups, r.groups)
    ensures PrefixUntouched(groups, st, r.groups, r.state, gi)
  {
    var groups' := groups[gi := groups[gi].(params := out.params)];
    OtherGroupsKept(groups, gi, st, out);
    forall g, k | 0 <= g < gi && 0 <= k < |groups[g].params|
      ensures r.groups[g].params[k] == groups[g].params[k] && Lookup(r.state, (g, k)) == Lookup(st, (g, k))
    {
      assert groups'[g] == groups[g];
      assert Lookup(out.state, (g, k)) == Lookup(st, (g, k));
    }
  }

  lemma CombineFollows(groups: seq<Group>, gi: nat, st: map<Key, ParamState>, out: GroupOutcome, r: StepResult)
    requires gi < |groups|
    requires ParamsFit(groups) && StateFits(groups, st)
    requires GroupFits(groups[gi].params, gi, st) && GroupStepped(groups[gi].hyper, groups[gi].params, gi, st, out) && !out.sparse
    requires ShapesKept(groups, groups[gi := groups[gi].(params := out.params)])
    requires ParamsFit(groups[gi := groups[gi].(params := out.params)])
    requires StateFits(groups[gi := groups[gi].(params := out.params)], out.state)
    requires ShapesKept(groups[gi := groups[gi].(params := out.params)], r.groups)
    requires PrefixUntouched(groups[gi := groups[gi].(params := out.params)], out.state, r.groups, r.state, gi + 1)
    requires !HasSparseFrom(groups, gi)
    requires !HasSparseFrom(groups[gi := groups[gi].(params := out.params)], gi + 1)
    requires FollowsReference(groups[gi := groups[gi].(params := out.params)], out.state, r.groups, r.state, gi + 1)
    ensures ShapesKept(groups, r.groups)
    ensures FollowsReference(groups, st, r.groups, r.state, gi)
  {
    var groups' := groups[gi := groups[gi].(params := out.params)];
    OtherGroupsKept(groups, gi, st, out);
    forall g, k | gi <= g < |groups| && 0 <= k < |groups[g].params|
      ensures (r.groups[g].params[k], Lookup(r.state, (g, k))) ==
        ParamAfterStep(groups[g].hyper, groups[g].params[k], Lookup(st, (g, k)))
    {
      if g == gi {
        assert r.groups[g].params[k] == out.params[k];
      } else {
        assert groups'[g] == groups[g];
        assert Lookup(out.state, (g, k)) == Lookup(st, (g, k));
      }
    }
  }

  /** A group without sparse gradients contributes nothing to the sparse
      check, whatever its updated parameters are. */
  lemma SparseAfterGroup(groups: seq<Group>, gi: nat, ps': seq<Param>)
    requires gi < |groups| && |ps'| == |groups[gi].params|
    requires forall k :: 0 <= k < |ps'| ==> ps'[k].grad == groups[gi].params[k].grad
    requires !exists k :: 0 <= k < |ps'| && IsSparse(groups[gi].params[k])
    ensures HasSparseFrom(groups, gi) <==> HasSparseFrom(groups[gi := groups[gi].(params := ps')], gi + 1)
  {
    var groups' := groups[gi := groups[gi].(params := ps')];
    if HasSparseFrom(groups, gi) {
      var g, k :| gi <= g < |groups| && 0 <= k < |groups[g].params| && IsSparse(groups[g].params[k]);
      assert g != gi;
      assert IsSparse(groups'[g].params[k]);
    }
    if HasSparseFrom(groups', gi + 1) {
      var g, k :| gi + 1 <= g < |groups'| && 0 <= k < |groups'[g].params| && IsSparse(groups'[g].params[k]);
      assert IsSparse(groups[g].params[k]);
    }
  }

  /** `Minato.step()` on the whole optimizer. On success every parameter is
      updated exactly as `ParamAfterStep` describes. */
  function Step(o: Optimizer): (r: (Optimizer, Option<Error>))
    requires WellFormed(o)
    ensures WellFormed(r.0)
    ensures r.0.defaults == o.defaults && ShapesKept(o.groups, r.0.groups)
    ensures r.1.Some? <==> HasSparseFrom(o.groups, 0)
    ensures r.1.Some? ==> r.1.value == SparseGradient
    ensures r.1.None? ==> forall g, k :: 0 <= g < |o.groups| && 0 <= k < |o.groups[g].params| ==>
      (r.0.groups[g].params[k], Lookup(r.0.state, (g, k))) ==
        ParamAfterStep(o.groups[g].hyper, o.groups[g].params[k], Lookup(o.state, (g, k)))
  {
    var res := StepGroups(o.groups, 0, o.state);
    (o.(groups := res.groups, state := res.state), res.error)
  }

  /** After a successful `step()`, every parameter with a dense gradient has
      its counter advanced by one (from 0 when its state was just created)
      and every parameter without a gradient keeps its value and state. */
  lemma StepCountsDenseParams(o: Optimizer)
    requires WellFormed(o)
    requires !HasSparseFrom(o.groups, 0)
    ensures ShapesKept(o.groups, Step(o).0.groups)
    ensures DenseCounted(o, Step(o).0) && UngradedKept(o, Step(o).0)
  {
    var o' := Step(o).0;
    assert FollowsReference(o.groups, o.state, o'.groups, o'.state, 0);
    CountsFromReference(o, o');
  }

  lemma CountsFromReference(o: Optimizer, o': Optimizer)
    requires WellFormed(o) && !HasSparseFrom(o.groups, 0) && ShapesKept(o.groups, o'.groups)
    requires FollowsReference(o.groups, o.state, o'.groups, o'.state, 0)
    ensures DenseCounted(o, o') && UngradedKept(o, o')
  {
    forall g, k | 0 <= g < |o.groups| && 0 <= k < |o.groups[g].params|
      ensures IsDense(o.groups[g].params[k]) ==>
        Lookup(o'.state, (g, k)).Some? &&
        Lookup(o'.state, (g, k)).value.step == Lookup(o.state, (g, k)).GetOr(ParamState(0, [])).step + 1
      ensures o.groups[g].params[k].grad.None? ==>
        o'.groups[g].params[k] == o.groups[g].params[k] && Lookup(o'.state, (g, k)) == Lookup(o.state, (g, k))
    {
      CountsOne(o.groups[g].hyper, o.groups[g].params[k], Lookup(o.state, (g, k)),
                o'.groups[g].params[k], Lookup(o'.state, (g, k)));
    }
  }

  /** Every parameter with a dense gradient has its counter one past its old
      value (0 for a missing state). */
  ghost predicate DenseCounted(o: Optimizer, o': Optimizer)
    requires ShapesKept(o.groups, o'.groups)
  {
    forall g, k :: 0 <= g < |o.groups| && 0 <= k < |o.groups[g].params| && IsDense(o.groups[g].params[k]) ==>
      Lookup(o'.state, (g, k)).Some? &&
      Lookup(o'.state, (g, k)).value.step == Lookup(o.state, (g, k)).GetOr(ParamState(0, [])).step + 1
  }

  /** Every parameter without a gradient keeps its value and its state. */
  ghost predicate UngradedKept(o: Optimizer, o': Optimizer)
    requires ShapesKept(o.groups, o'.groups)
  {
    forall g, k :: 0 <= g < |o.groups| && 0 <= k < |o.groups[g].params| && o.groups[g].params[k].grad.None? ==>
      o'.groups[g].params[k] == o.groups[g].params[k] && Lookup(o'.state, (g, k)) == Lookup(o.state, (g, k))
  }

  /** The per-parameter case of the above. */
  lemma CountsOne(h: Hyper, p: Param, s: Option<ParamState>, p': Param, s': Option<ParamState>)
    requires ParamFits(p) && !IsSparse(p)
    requires s.Some? ==> |s.value.expAvg| == |p.value|
    requires (p', s') == ParamAfterStep(h, p, s)
    ensures IsDense(p) ==> s'.Some? && s'.value.step == s.GetOr(ParamState(0, [])).step + 1
    ensures p.grad.None? ==> p' == p && s' == s
  {
  }

  /** The momentum of one element under a sequence of gradients, starting
      from `m`: the moving-average recurrence `m * beta + g * (1 - beta)` the
      element rule applies once per step (`maximize` off). */
  function Momentum(beta: real, m: real, grads: seq<real>): (r: real)
    ensures |grads| == 0 ==> r == m
  {
    if |grads| == 0 then m
    else Momentum(beta, m, grads[..|grads| - 1]) * beta + grads[|grads| - 1] * (1.0 - beta)
  }

  function Pow(b: real, n: nat): (r: real)
    ensures 0.0 <= b < 1.0 ==> 0.0 <= r <= 1.0
    ensures 0.0 <= b < 1.0 && n > 0 ==> r < 1.0
  {
    if n == 0 then 1.0
    else
      var q := Pow(b, n - 1);
      PowStep(b, q);
      b * q
  }

  lemma PowStep(b: real, q: real)
    ensures 0.0 <= b < 1.0 && 0.0 <= q <= 1.0 ==> 0.0 <= b * q < 1.0
  {
    if 0.0 <= b < 1.0 && 0.0 <= q <= 1.0 {
      assert b * q <= b * 1.0;
    }
  }

  function Repeat(g: real, n: nat): (r: seq<real>)
    ensures |r| == n && forall i :: 0 <= i < n ==> r[i] == g
  {
    seq(n, _ => g)
  }

  /** From zero momentum, `n` steps of the same gradient `g` leave the
      bias-uncorrected average `(1 - beta^n) * g`. */
  lemma {:induction false} ConstantGradientMomentum(beta: real, g: real, n: nat)
    ensures Momentum(beta, 0.0, Repeat(g, n)) == (1.0 - Pow(beta, n)) * g
  {
    if n > 0 {
      assert Repeat(g, n)[..n - 1] == Repeat(g, n - 1);
      ConstantGradientMomentum(beta, g, n - 1);
      var q := Pow(beta, n - 1);
      assert Momentum(beta, 0.0, Repeat(g, n)) == ((1.0 - q) * g) * beta + g * (1.0 - beta);
      assert ((1.0 - q) * g) * beta == g * beta - (beta * q) * g;
    }
  }

  /** Hence with a constant gradient whose average has reached epsilon, the
      next step moves the decayed parameter by exactly `lr` against the
      gradient's sign. */
  lemma ConstantGradientSignStep(h: Hyper, p: real, g: real, n: nat)
    requires !h.maximize && 0.0 <= h.beta < 1.0
    requires Abs(Momentum(h.beta, 0.0, Repeat(g, n + 1))) >= Epsilon
    ensures Sign(Momentum(h.beta, 0.0, Repeat(g, n + 1))) == Sign(g)
    ensures UpdateElement(h, p, g, Momentum(h.beta, 0.0, Repeat(g, n))).param ==
      p * (1.0 - h.lr * h.weightDecay) - h.lr * Sign(g)
  {
    ConstantGradientSign(h.beta, g, n + 1);
    MomentumLastStep(h.beta, g, n);
    var m, m' := Momentum(h.beta, 0.0, Repeat(g, n)), Momentum(h.beta, 0.0, Repeat(g, n + 1));
    assert m' == m * h.beta + g * (1.0 - h.beta);
    assert Abs(m') >= Epsilon;
    SaturatedStep(h, p, g, m);
  }

  /** A constant gradient's average has the gradient's sign after any
      positive number of steps. */
  lemma ConstantGradientSign(beta: real, g: real, n: nat)
    requires 0.0 <= beta < 1.0 && n > 0
    ensures Sign(Momentum(beta, 0.0, Repeat(g, n))) == Sign(g)
  {
    ConstantGradientMomentum(beta, g, n);
    SignOfPositiveMultiple(1.0 - Pow(beta, n), g);
  }

  lemma MomentumLastStep(beta: real, g: real, n: nat)
    ensures Momentum(beta, 0.0, Repeat(g, n + 1)) == Momentum(beta, 0.0, Repeat(g, n)) * beta + g * (1.0 - beta)
  {
    assert Repeat(g, n + 1)[..n] == Repeat(g, n);
  }

  lemma SaturatedStep(h: Hyper, p: real, g: real, m: real)
    requires !h.maximize
    requires Abs(m * h.beta + g * (1.0 - h.beta)) >= Epsilon
    ensures UpdateElement(h, p, g, m).param ==
      p * (1.0 - h.lr * h.weightDecay) - h.lr * Sign(m * h.beta + g * (1.0 - h.beta))
  {
    var r := UpdateElement(h, p, g, m);
    assert r.expAvg == m * h.beta + g * (1.0 - h.beta);
  }

  lemma SignOfPositiveMultiple(c: real, g: real)
    requires c > 0.0
    ensures Sign(c * g) == Sign(g)
  {
    if g > 0.0 {
      assert c * g > 0.0;
    } else if g < 0.0 {
      assert c * (-g) > 0.0;
    }
  }

  /** The per-parameter reference over successive steps with dense
      gradients; the counter ends at the number of steps taken. */
  function RunParam(h: Hyper, p: seq<real>, grads: seq<seq<real>>, s: Option<ParamState>)
    : (r: (seq<real>, ParamState))
    requires |grads| > 0
    requires forall i :: 0 <= i < |grads| ==> |grads[i]| == |p|
    requires s.Some? ==> |s.value.expAvg| == |p|
    ensures |r.0| == |p| && |r.1.expAvg| == |p|
  {
    var last := grads[|grads| - 1];
    var (v, s') := if |grads| == 1 then (p, s) else
      var r0 := RunParam(h, p, grads[..|grads| - 1], s); (r0.0, Some(r0.1));
    var (p', st) := ParamAfterStep(h, Param(v, Some(Dense(last))), s');
    (p'.value, st.value)
  }

  /** `n` dense steps starting without state leave `state["step"] == n`. */
  lemma {:induction false} RunParamCountsSteps(h: Hyper, p: seq<real>, grads: seq<seq<real>>, s: Option<ParamState>)
    requires |grads| > 0
    requires forall i :: 0 <= i < |grads| ==> |grads[i]| == |p|
    requires s.Some? ==> |s.value.expAvg| == |p|
    ensures RunParam(h, p, grads, s).1.step == s.GetOr(ParamState(0, [])).step + |grads|
  {
    if |grads| > 1 {
      RunParamCountsSteps(h, p, grads[..|grads| - 1], s);
    }
  }
}
