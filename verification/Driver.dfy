/**
 The driver of the fablepass: which loops it rewrites, with which batch, and
 which factor it publishes to the promotion handler of each site.  The handler
 relies on the factor being at least the step of every loop left under its site.
 */
module Driver {
  import opened Wrappers

  /** An integer add-recurrence among a probe loop's header PHIs, with its step if constant. */
  datatype Induction = Induction(indexType: bool, step: Option<int>)

  /** A loop of the probe; `shaped` stands for the remaining checks of `matchStepLoop`. */
  datatype ProbeLoop = ProbeLoop(inductions: seq<Induction>, shaped: bool)

  /** The probe after LLVM's pipeline; `verified` says that the rewritten probe passes the
      verifier and depends on the snapshot in no loop. */
  datatype Probe = Probe(loops: seq<ProbeLoop>, vectorized: bool, verified: bool)

  /** A marked loop: its progress slot if the protocol was recognised, and its probe. */
  datatype Marked = Marked(progress: Option<nat>, probe: Probe)

  /** A marker and the loops it denotes, none if `findMarkedLoops` fails. */
  datatype Marker = Marker(optNone: bool, loops: seq<Marked>)

  datatype Options = Options(maxBatch: nat, forceBatch: nat)

  function Abs(n: int): (r: nat)
    ensures r == n || r == -n
  {
    if n < 0 then -n else n
  }

  // ---------- measuring a probe ----------

  /** `s` is the step of the slowest-moving induction of `l`, 0 if no step is constant. */
  ghost predicate IsMinStep(l: ProbeLoop, s: nat) {
    && (forall i :: i in l.inductions && i.step.Some? && i.step.value != 0 ==> 0 < s <= Abs(i.step.value))
    && (s != 0 ==> exists i :: i in l.inductions && i.step.Some? && Abs(i.step.value) == s)
  }

  method MinStep(l: ProbeLoop) returns (s: nat)
    ensures IsMinStep(l, s)
  {
    s := 0;
    for k := 0 to |l.inductions|
      invariant forall i :: i in l.inductions[..k] && i.step.Some? && i.step.value != 0 ==> 0 < s <= Abs(i.step.value)
      invariant s != 0 ==> exists i :: i in l.inductions && i.step.Some? && Abs(i.step.value) == s
    {
      var i := l.inductions[k];
      assert i in l.inductions;
      if i.step.Some? && i.step.value != 0 && (s == 0 || Abs(i.step.value) < s) {
        s := Abs(i.step.value);
      }
    }
    assert l.inductions[..|l.inductions|] == l.inductions;
  }

  /** `batch` is the largest step among the probe's loops, at least 1. */
  ghost predicate IsBatch(p: Probe, batch: nat) {
    && 1 <= batch
    && (forall l, s: nat :: l in p.loops && IsMinStep(l, s) ==> s <= batch)
    && (batch != 1 ==> exists l :: l in p.loops && IsMinStep(l, batch))
  }

  lemma MinStepUnique(l: ProbeLoop, s: nat, t: nat)
    requires IsMinStep(l, s) && IsMinStep(l, t)
    ensures s == t
  {
  }

  lemma BatchUnique(p: Probe, a: nat, b: nat)
    requires IsBatch(p, a) && IsBatch(p, b)
    ensures a == b
  {
  }

  /** `measureProbe`. */
  method MeasureProbe(p: Probe) returns (batch: nat)
    ensures IsBatch(p, batch)
  {
    batch := 1;
    for k := 0 to |p.loops|
      invariant 1 <= batch
      invariant forall l, s: nat :: l in p.loops[..k] && IsMinStep(l, s) ==> s <= batch
      invariant batch != 1 ==> exists l :: l in p.loops && IsMinStep(l, batch)
    {
      var s := MinStep(p.loops[k]);
      assert p.loops[k] in p.loops;
      forall t | IsMinStep(p.loops[k], t) ensures t == s {
        MinStepUnique(p.loops[k], s, t);
      }
      if s > batch { batch := s; }
    }
    assert p.loops[..|p.loops|] == p.loops;
  }

  /** What the driver takes for the batch of a loop. */
  ghost predicate Proposes(o: Options, l: Marked, batch: nat) {
    if o.forceBatch != 0 then batch == o.forceBatch
    else exists b: nat :: IsBatch(l.probe, b) && batch == if b > o.maxBatch then 1 else b
  }

  lemma ProposalUnique(o: Options, l: Marked, a: nat, b: nat)
    requires Proposes(o, l, a) && Proposes(o, l, b)
    ensures a == b
  {
    if o.forceBatch == 0 {
      var x: nat :| IsBatch(l.probe, x) && a == if x > o.maxBatch then 1 else x;
      var y: nat :| IsBatch(l.probe, y) && b == if y > o.maxBatch then 1 else y;
      BatchUnique(l.probe, x, y);
    }
  }

  method Propose(o: Options, l: Marked) returns (batch: nat)
    ensures Proposes(o, l, batch)
    ensures o.forceBatch != 0 ==> batch == o.forceBatch
    ensures o.forceBatch == 0 ==>
              if IsBatch(l.probe, batch) then batch == 1 || batch <= o.maxBatch
              else batch == 1 && forall b: nat :: IsBatch(l.probe, b) ==> o.maxBatch < b
  {
    if o.forceBatch != 0 { return o.forceBatch; }
    batch := MeasureProbe(l.probe);
    if batch > o.maxBatch { batch := 1; }
  }

  // ---------- the step loops of a transplant ----------

  /** Exactly one integer induction, of the index type, with a positive constant step. */
  predicate Matches(l: ProbeLoop) {
    && l.shaped && |l.inductions| == 1 && l.inductions[0].indexType
    && l.inductions[0].step.Some? && 0 < l.inductions[0].step.value
  }

  /** `matchStepLoop`: the step of an accepted loop is the one that was measured for it. */
  method MatchStepLoop(l: ProbeLoop) returns (step: Option<nat>)
    ensures step.Some? <==> Matches(l)
    ensures step.Some? <==>
            && l.shaped && |l.inductions| == 1 && l.inductions[0].indexType
            && exists s: int :: l.inductions[0].step == Some(s) && 0 < s
    ensures step.Some? ==> 0 < step.value && IsMinStep(l, step.value)
  {
    step := None;
    var found := false;
    for k := 0 to |l.inductions|
      invariant !found ==> k == 0 && step == None
      invariant found ==> k == 1 && l.inductions[0].step == step && step.Some? && 0 < step.value
    {
      var i := l.inductions[k];
      if i.step.None? || i.step.value <= 0 || found { return None; }
      found, step := true, Some(i.step.value);
    }
    if !found || !l.inductions[0].indexType || !l.shaped { return None; }
    assert l.inductions == [l.inductions[0]];
  }

  predicate Transplantable(p: Probe) {
    p.vectorized && p.loops != [] && p.verified && forall k :: 0 <= k < |p.loops| ==> Matches(p.loops[k])
  }

  /** `transplantProbe`: the steps of the loops it leaves, if the whole probe is understood. */
  method TransplantProbe(p: Probe) returns (steps: Option<seq<nat>>)
    ensures steps.Some? <==> Transplantable(p)
    ensures steps.Some? ==> p.vectorized && p.loops != [] && p.verified
    ensures steps.None? ==> !p.vectorized || p.loops == [] || !p.verified || exists l :: l in p.loops && !Matches(l)
    ensures steps.Some? ==>
              |steps.value| == |p.loops| && forall k :: 0 <= k < |p.loops| ==> IsMinStep(p.loops[k], steps.value[k])
  {
    if !p.vectorized || p.loops == [] || !p.verified { return None; }
    var all := [];
    for k := 0 to |p.loops|
      invariant |all| == k
      invariant forall j :: 0 <= j < k ==> Matches(p.loops[j]) && IsMinStep(p.loops[j], all[j])
    {
      var s := MatchStepLoop(p.loops[k]);
      if s.None? { return None; }
      all := all + [s.value];
    }
    steps := Some(all);
  }

  /** The loops left in place of `l`: those of the transplanted probe, or a batch loop and its cleanup. */
  ghost predicate IsLeft(o: Options, l: Marked, batch: nat, steps: seq<nat>) {
    if o.forceBatch == 0 && Transplantable(l.probe) then
      && |steps| == |l.probe.loops|
      && forall k :: 0 <= k < |steps| ==> IsMinStep(l.probe.loops[k], steps[k])
    else steps == [batch, 1]
  }

  /** `transplantProbe`, or else `formBatchedLoop`: no loop left steps further than the batch. */
  method Rewrite(o: Options, l: Marked, batch: nat) returns (steps: seq<nat>)
    requires Proposes(o, l, batch) && 2 <= batch
    ensures IsLeft(o, l, batch, steps)
    ensures forall s :: s in steps ==> s <= batch
  {
    if o.forceBatch == 0 {
      var t := TransplantProbe(l.probe);
      if t.Some? {
        forall k | 0 <= k < |t.value| ensures t.value[k] <= batch {
          assert l.probe.loops[k] in l.probe.loops;
        }
        return t.value;
      }
    }
    steps := [batch, 1];
  }

  // ---------- one site ----------

  /** The loops left under a site, by marker and loop: the steps they take. */
  type Steps = seq<seq<seq<nat>>>

  function Unchanged(markers: seq<Marker>): Steps {
    seq(|markers|, m requires 0 <= m < |markers| => seq(|markers[m].loops|, _ => [1]))
  }

  /** Every marker denotes loops, they are recognised, share a progress slot under one marker,
      and all propose `batch`. */
  ghost predicate Agreed(o: Options, markers: seq<Marker>, batch: nat) {
    && 2 <= batch
    && forall k :: 0 <= k < |markers| ==> AgreedMarker(o, markers[k], batch)
  }

  ghost predicate AgreedMarker(o: Options, m: Marker, batch: nat) {
    && !m.optNone && m.loops != []
    && AgreedLoops(o, m, |m.loops|, batch)
  }

  ghost predicate AgreedLoops(o: Options, m: Marker, n: nat, batch: nat)
    requires n <= |m.loops|
  {
    forall j :: 0 <= j < n ==>
                  m.loops[j].progress.Some? && m.loops[j].progress == m.loops[0].progress
                  && Proposes(o, m.loops[j], batch)
  }

  /** The checks on the loops of one marker; `batch` is 0 before the first loop of the site. */
  method CheckMarker(o: Options, m: Marker, before: nat) returns (ok: bool, batch: nat)
    requires before == 0 || 2 <= before
    ensures ok ==> (before != 0 ==> batch == before) && 2 <= batch && AgreedMarker(o, m, batch)
    ensures !ok ==> forall b :: 2 <= b && (before == 0 || b == before) ==> !AgreedMarker(o, m, b)
  {
    ok, batch := true, before;
    if m.optNone || m.loops == [] { return false, before; }
    for j := 0 to |m.loops|
      invariant ok && (batch == 0 || 2 <= batch) && (batch == before == 0 ==> j == 0)
      invariant (j == 0 ==> batch == before) && (before != 0 ==> batch == before)
      invariant AgreedLoops(o, m, j, batch)
    {
      var l := m.loops[j];
      var b := Propose(o, l);
      forall c | Proposes(o, l, c) ensures c == b {
        ProposalUnique(o, l, b, c);
      }
      if l.progress.None? || l.progress != m.loops[0].progress || b < 2 || (batch != 0 && b != batch) {
        if j > 0 { ProposalsFixed(o, m, j, batch); }
        forall c: nat | 2 <= c && (before == 0 || c == before) ensures !AgreedMarker(o, m, c) {
          AgreedAt(o, m, j, c);
        }
        return false, batch;
      }
      batch := b;
    }
  }

  lemma AgreedAt(o: Options, m: Marker, j: nat, batch: nat)
    requires j < |m.loops|
    ensures AgreedMarker(o, m, batch) ==>
              m.loops[j].progress.Some? && m.loops[j].progress == m.loops[0].progress && Proposes(o, m.loops[j], batch)
  {
  }

  /** The first loop of a marker fixes the batch. */
  lemma ProposalsFixed(o: Options, m: Marker, j: nat, batch: nat)
    requires 0 < j <= |m.loops| && AgreedLoops(o, m, j, batch)
    ensures forall b :: AgreedMarker(o, m, b) ==> b == batch
  {
    forall b | AgreedMarker(o, m, b) ensures b == batch {
      assert Proposes(o, m.loops[0], b) && Proposes(o, m.loops[0], batch);
      ProposalUnique(o, m.loops[0], b, batch);
    }
  }

  /** What the driver decides about a site and leaves of its loops. */
  datatype Outcome = Outcome(factor: nat, left: Steps)

  /** The published factor covers every loop left under the site. */
  ghost predicate Covers(r: Outcome) {
    forall m, j, s :: 0 <= m < |r.left| && 0 <= j < |r.left[m]| && s in r.left[m][j] ==> s <= r.factor
  }

  /** The checks on a whole site. */
  method CheckSite(o: Options, markers: seq<Marker>) returns (ok: bool, batch: nat)
    requires markers != []
    ensures ok ==> Agreed(o, markers, batch)
    ensures !ok ==> forall b :: !Agreed(o, markers, b)
  {
    ok, batch := true, 0;
    for k := 0 to |markers|
      invariant ok && (k == 0 ==> batch == 0) && (k > 0 ==> 2 <= batch)
      invariant forall i :: 0 <= i < k ==> AgreedMarker(o, markers[i], batch)
    {
      ghost var before := batch;
      ok, batch := CheckMarker(o, markers[k], batch);
      if !ok {
        forall b | Agreed(o, markers, b) ensures false {
          assert AgreedMarker(o, markers[k], b) && AgreedMarker(o, markers[0], b);
          if k > 0 { MarkersFix(o, markers[0], b, before); }
        }
        return;
      }
    }
  }

  lemma MarkersFix(o: Options, m: Marker, a: nat, b: nat)
    requires AgreedMarker(o, m, a) && AgreedMarker(o, m, b)
    ensures a == b
  {
    ProposalsFixed(o, m, |m.loops|, b);
  }

  /** The loops left under a site whose markers agree on `batch`. */
  ghost predicate Rewritten(o: Options, markers: seq<Marker>, batch: nat, left: Steps) {
    && |left| == |markers|
    && forall m :: 0 <= m < |left| ==> RewrittenMarker(o, markers[m], batch, left[m])
  }

  ghost predicate RewrittenMarker(o: Options, m: Marker, batch: nat, left: seq<seq<nat>>) {
    |left| == |m.loops| && forall j :: 0 <= j < |left| ==> IsLeft(o, m.loops[j], batch, left[j])
  }

  /** One turn of the driver's loop over the sites. */
  method RunSite(o: Options, markers: seq<Marker>) returns (r: Outcome)
    requires markers != []
    ensures |r.left| == |markers| && Covers(r) && 1 <= r.factor
    ensures r.factor != 1 ==> Agreed(o, markers, r.factor) && Rewritten(o, markers, r.factor, r.left)
    ensures r.factor == 1 ==> r.left == Unchanged(markers) && forall b :: !Agreed(o, markers, b)
  {
    var ok, batch := CheckSite(o, markers);
    if !ok { return Outcome(1, Unchanged(markers)); }
    var left: Steps := [];
    for m := 0 to |markers|
      invariant |left| == m && forall a :: 0 <= a < m ==> RewrittenMarker(o, markers[a], batch, left[a])
      invariant forall a, j, s :: 0 <= a < m && 0 <= j < |left[a]| && s in left[a][j] ==> s <= batch
    {
      assert AgreedMarker(o, markers[m], batch);
      var loops := [];
      for j := 0 to |markers[m].loops|
        invariant |loops| == j && forall i :: 0 <= i < j ==> IsLeft(o, markers[m].loops[i], batch, loops[i])
        invariant forall i, s :: 0 <= i < j && s in loops[i] ==> s <= batch
      {
        var steps := Rewrite(o, markers[m].loops[j], batch);
        loops := loops + [steps];
      }
      left := left + [loops];
    }
    r := Outcome(batch, left);
  }

  // ---------- the module ----------

  ghost predicate Decided(o: Options, sites: map<nat, seq<Marker>>, outcomes: map<nat, Outcome>) {
    forall t :: t in outcomes ==> t in sites && DecidedSite(o, sites[t], outcomes[t])
  }

  /** The loops of a site whose markers agree are rewritten for the agreed batch, which is its
      factor; otherwise no loop is changed and the factor is 1.  Either way it covers the loops. */
  ghost predicate DecidedSite(o: Options, markers: seq<Marker>, r: Outcome) {
    && |r.left| == |markers| && Covers(r) && 1 <= r.factor
    && if exists b :: Agreed(o, markers, b) then
         Agreed(o, markers, r.factor) && Rewritten(o, markers, r.factor, r.left)
       else r == Outcome(1, Unchanged(markers))
  }

  lemma SiteDecided(o: Options, markers: seq<Marker>, r: Outcome)
    requires |r.left| == |markers| && Covers(r) && 1 <= r.factor
    requires r.factor != 1 ==> Agreed(o, markers, r.factor) && Rewritten(o, markers, r.factor, r.left)
    requires r.factor == 1 ==> r.left == Unchanged(markers) && forall b :: !Agreed(o, markers, b)
    ensures DecidedSite(o, markers, r)
  {
    hide Covers; hide Agreed; hide Rewritten; hide Unchanged;
  }

  /** The factor of a decided site covers its loops. */
  lemma DecidedCovers(o: Options, markers: seq<Marker>, r: Outcome)
    requires DecidedSite(o, markers, r)
    ensures Covers(r) && 1 <= r.factor
  {
    hide Covers; hide Agreed; hide Rewritten; hide Unchanged;
  }

  /** `SporkUnrollPass::run`: the sites of a module, each with its markers, and the factor
      queries, each with its token if it has one. */
  method Run(o: Options, sites: map<nat, seq<Marker>>, queries: seq<Option<nat>>)
    returns (outcomes: map<nat, Outcome>, factors: seq<nat>)
    requires forall t :: t in sites ==> sites[t] != []
    ensures outcomes.Keys == sites.Keys && Decided(o, sites, outcomes)
    ensures |factors| == |queries|
    ensures forall q :: 0 <= q < |queries| ==>
                          factors[q] == if queries[q].Some? && queries[q].value in sites
                          then outcomes[queries[q].value].factor else 1
  {
    hide DecidedSite; hide Covers; hide Agreed; hide Rewritten; hide Unchanged;
    outcomes := map[];
    var todo := sites.Keys;
    while todo != {}
      invariant todo <= sites.Keys && outcomes.Keys == sites.Keys - todo && Decided(o, sites, outcomes)
      decreases |todo|
    {
      var t :| t in todo;
      var r := RunSite(o, sites[t]);
      SiteDecided(o, sites[t], r);
      outcomes := outcomes[t := r];
      todo := todo - {t};
    }
    factors := [];
    for q := 0 to |queries|
      invariant |factors| == q
      invariant forall h :: 0 <= h < q ==>
                              factors[h] == if queries[h].Some? && queries[h].value in sites
                              then outcomes[queries[h].value].factor else 1
    {
      forall t | t in outcomes ensures Covers(outcomes[t]) && 1 <= outcomes[t].factor {
        DecidedCovers(o, sites[t], outcomes[t]);
      }
      var factor := FactorQuery(outcomes, queries[q]);
      factors := factors + [factor];
    }
  }

  /** What replaces a `__spork_get_unroll_factor` call: the factor of its site, or 1. */
  method FactorQuery(outcomes: map<nat, Outcome>, token: Option<nat>) returns (factor: nat)
    requires forall t :: t in outcomes ==> Covers(outcomes[t]) && 1 <= outcomes[t].factor
    ensures factor == if token.Some? && token.value in outcomes then outcomes[token.value].factor else 1
  {
    factor := 1;
    if token.Some? && token.value in outcomes && outcomes[token.value].factor != 0 {
      factor := outcomes[token.value].factor;
    }
  }
}
