/**
 * What `Vulkan::Instance`'s constructor decides, stated over plain data: how each reported queue
 * family becomes a `QueueFamily` record, how the graphics and presentation candidates are picked
 * while the families are scanned, and which adapter the first-match loop settles on.
 *
 * The two candidates are the instance members `gfxQueueFamily` and `preQueueFamily`. They start at
 * -1 once and the adapter loop never resets them, so what one adapter's scan leaves behind is where
 * the next adapter's scan starts; the functions below thread them through in the same way.
 */
module VulkanSelection {
  import opened CTypes
  import opened VulkanTypes

  // ----------------------------------------------------------------------------------------------
  // What the driver reports

  /** One entry of `vkGetPhysicalDeviceQueueFamilyProperties`, with the answer of
      `vkGetPhysicalDeviceSurfaceSupportKHR` for that family and the instance's surface. */
  datatype ReportedFamily = ReportedFamily(queueFlags: bv32, queueCount: uint32, surfaceSupport: bool)

  /** One physical device: its properties and its queue families, in reported order. */
  datatype Gpu = Gpu(properties: DeviceProperties, families: seq<ReportedFamily>)

  predicate HasFlag(f: ReportedFamily, bit: bv32) {
    f.queueFlags & bit != 0
  }

  /** A reported family that can do graphics and present to the surface. */
  predicate Drawable(f: ReportedFamily) {
    HasFlag(f, QueueGraphicsBit) && f.surfaceSupport
  }

  predicate HasDrawableFamily(gpu: Gpu) {
    exists k :: 0 <= k < |gpu.families| && Drawable(gpu.families[k])
  }

  // ----------------------------------------------------------------------------------------------
  // The classifier

  /** The record `listQueueFamilies` builds for the family at position `k`: a default
      `QueueFamily` with its index, capability flags and presentation answer filled in. */
  function Translate(f: ReportedFamily, k: int): QueueFamily {
    DefaultQueueFamily().(
      index := k,
      canDoGraphics := HasFlag(f, QueueGraphicsBit),
      canDoComputation := HasFlag(f, QueueComputeBit),
      canDoTransfers := HasFlag(f, QueueTransferBit),
      canDoSparseBinding := HasFlag(f, QueueSparseBindingBit),
      canDoPresentation := f.surfaceSupport)
  }

  /**
   * `listQueueFamilies`: one record per reported family, in reported order; the record at
   * position k has index k, each capability flag is its bit of `queueFlags`, presentation is the
   * surface-support answer alone, and the queue count is never copied.
   */
  function Classify(reported: seq<ReportedFamily>): (fams: seq<QueueFamily>)
    ensures |fams| == |reported|
    ensures forall k :: 0 <= k < |fams| ==>
              && fams[k].index == k
              && (fams[k].canDoGraphics <==> reported[k].queueFlags & QueueGraphicsBit != 0)
              && (fams[k].canDoComputation <==> reported[k].queueFlags & QueueComputeBit != 0)
              && (fams[k].canDoTransfers <==> reported[k].queueFlags & QueueTransferBit != 0)
              && (fams[k].canDoSparseBinding <==> reported[k].queueFlags & QueueSparseBindingBit != 0)
              && fams[k].canDoPresentation == reported[k].surfaceSupport
              && fams[k].queuesAvailable == 0
  {
    seq(|reported|, k requires 0 <= k < |reported| => Translate(reported[k], k))
  }

  /** The records of a list sit at consecutive indices starting at `base`. */
  predicate IndexedFrom(fams: seq<QueueFamily>, base: int) {
    forall k :: 0 <= k < |fams| ==> fams[k].index == base + k
  }

  // ----------------------------------------------------------------------------------------------
  // Scanning one adapter's families

  /** The values of `gfxQueueFamily` and `preQueueFamily`; negative means "none yet". */
  datatype Candidates = Candidates(gfx: int, pre: int)

  /** The initial values of both members. */
  const NoCandidates := Candidates(-1, -1)

  /**
   * The body of the family loop for one record: a graphics family becomes the graphics candidate
   * if there is none yet, and the presentation candidate too if it can present and there is none
   * yet. A family without graphics changes nothing, and a candidate, once set, is kept.
   */
  function Consider(c: Candidates, f: QueueFamily): (r: Candidates)
    ensures !f.canDoGraphics ==> r == c
    ensures c.gfx >= 0 ==> r.gfx == c.gfx
    ensures c.pre >= 0 ==> r.pre == c.pre
  {
    if f.canDoGraphics then
      Candidates(if c.gfx < 0 then f.index else c.gfx,
                 if f.canDoPresentation && c.pre < 0 then f.index else c.pre)
    else c
  }

  /** The family loop: `Consider` applied to every record in order. */
  function ScanFamilies(c: Candidates, fams: seq<QueueFamily>): Candidates
    decreases |fams|
  {
    if fams == [] then c else ScanFamilies(Consider(c, fams[0]), fams[1..])
  }

  predicate IsGraphics(f: QueueFamily) { f.canDoGraphics }

  predicate IsDrawable(f: QueueFamily) { f.canDoGraphics && f.canDoPresentation }

  /** The position of the first record satisfying `p`, or -1 if there is none. */
  function FirstWhere(fams: seq<QueueFamily>, p: QueueFamily -> bool): (k: int)
    ensures -1 <= k < |fams|
    ensures k >= 0 ==> p(fams[k])
    ensures forall j :: 0 <= j < |fams| && (k < 0 || j < k) ==> !p(fams[j])
    decreases |fams|
  {
    if fams == [] then -1
    else if p(fams[0]) then 0
    else
      var k := FirstWhere(fams[1..], p);
      if k < 0 then -1 else k + 1
  }

  function FirstGraphics(fams: seq<QueueFamily>): int {
    FirstWhere(fams, IsGraphics)
  }

  function FirstDrawable(fams: seq<QueueFamily>): int {
    FirstWhere(fams, IsDrawable)
  }

  /**
   * The scan in closed form: a candidate that is already set stays; one that is not becomes the
   * index of the first matching record, or stays as it was if no record matches.
   */
  lemma {:induction false} ScanFamiliesFrom(c: Candidates, fams: seq<QueueFamily>, base: int)
    requires base >= 0 && IndexedFrom(fams, base)
    ensures ScanFamilies(c, fams).gfx ==
              if c.gfx >= 0 || FirstGraphics(fams) < 0 then c.gfx else base + FirstGraphics(fams)
    ensures ScanFamilies(c, fams).pre ==
              if c.pre >= 0 || FirstDrawable(fams) < 0 then c.pre else base + FirstDrawable(fams)
    decreases |fams|
  {
    if fams != [] {
      var rest := fams[1..];
      assert IndexedFrom(rest, base + 1) by {
        forall k | 0 <= k < |rest| ensures rest[k].index == base + 1 + k {
          assert rest[k] == fams[k + 1];
        }
      }
      ScanFamiliesFrom(Consider(c, fams[0]), rest, base + 1);
    }
  }

  /**
   * Scanning one adapter's records from -1: the graphics candidate ends as the index of the first
   * graphics family, the presentation candidate as that of the first family that can do both;
   * each stays -1 if there is no such family.
   */
  lemma FreshScanFindsFirstFamilies(fams: seq<QueueFamily>)
    requires IndexedFrom(fams, 0)
    ensures ScanFamilies(NoCandidates, fams) == Candidates(FirstGraphics(fams), FirstDrawable(fams))
  {
    ScanFamiliesFrom(NoCandidates, fams, 0);
  }

  /**
   * Consequences for one adapter scanned from -1: a presentation candidate implies a graphics
   * candidate at the same or an earlier index, and the two coincide exactly when the first
   * graphics family can present.
   */
  lemma FreshScanOrdersCandidates(fams: seq<QueueFamily>)
    requires IndexedFrom(fams, 0)
    ensures var s := ScanFamilies(NoCandidates, fams);
            && (s.pre >= 0 ==> 0 <= s.gfx <= s.pre)
            && (s.gfx >= 0 ==> s.gfx < |fams| && (s.gfx == s.pre <==> fams[s.gfx].canDoPresentation))
  {
    FreshScanFindsFirstFamilies(fams);
    var g, p := FirstGraphics(fams), FirstDrawable(fams);
    if p >= 0 {
      assert IsGraphics(fams[p]);
    }
    if g >= 0 && fams[g].canDoPresentation {
      assert IsDrawable(fams[g]);
    }
  }

  // ----------------------------------------------------------------------------------------------
  // The adapter loop

  /** What the loop concludes about one adapter, in the order the source tests it. */
  datatype Verdict = NoGraphicsQueue | NoPresentationQueue | RuleRejected | Selected

  /** The decision at the end of an adapter's scan. The rule is asked only when both candidates
      are set, and a missing graphics candidate is reported before a missing presentation one. */
  function Judge(c: Candidates, rule: SelectionRule, properties: DeviceProperties): (v: Verdict)
    ensures (v == NoGraphicsQueue) <==> c.gfx < 0
    ensures (v == NoPresentationQueue) <==> c.gfx >= 0 && c.pre < 0
    ensures (v == Selected) <==> c.gfx >= 0 && c.pre >= 0 && IsSuitable(rule, properties)
  {
    if c.gfx < 0 then NoGraphicsQueue
    else if c.pre < 0 then NoPresentationQueue
    else if IsSuitable(rule, properties) then Selected
    else RuleRejected
  }

  /** Whether the selection rule was called for an adapter with this verdict. */
  predicate ConsultsRule(v: Verdict) {
    v == RuleRejected || v == Selected
  }

  /** One adapter's scan: classify its families, then run the family loop over them. */
  function AdapterScan(c: Candidates, gpu: Gpu): Candidates {
    ScanFamilies(c, Classify(gpu.families))
  }

  /** The outcome of the adapter loop: the selected adapter (-1 for none), the final values of
      the two members, and one verdict per adapter examined. */
  datatype Negotiation = Negotiation(selected: int, candidates: Candidates, verdicts: seq<Verdict>)

  /** The adapter loop from adapter `i` on, entered with the members at `c`. */
  function NegotiateFrom(gpus: seq<Gpu>, rule: SelectionRule, i: nat, c: Candidates): Negotiation
    requires i <= |gpus|
    decreases |gpus| - i
  {
    if i == |gpus| then Negotiation(-1, c, [])
    else
      var c' := AdapterScan(c, gpus[i]);
      var v := Judge(c', rule, gpus[i].properties);
      if v == Selected then Negotiation(i, c', [v])
      else
        var rest := NegotiateFrom(gpus, rule, i + 1, c');
        rest.(verdicts := [v] + rest.verdicts)
  }

  /** The whole loop, with both members at their initial -1. */
  function Negotiate(gpus: seq<Gpu>, rule: SelectionRule): Negotiation {
    NegotiateFrom(gpus, rule, 0, NoCandidates)
  }

  // ----------------------------------------------------------------------------------------------
  // The loop described without the loop

  /** The members after the scans of the first `n` adapters. */
  function CandidatesAfter(gpus: seq<Gpu>, n: nat): Candidates
    requires n <= |gpus|
  {
    if n == 0 then NoCandidates else AdapterScan(CandidatesAfter(gpus, n - 1), gpus[n - 1])
  }

  /** Adapter `i` passes: by the end of its scan both members are set, and the rule accepts it. */
  predicate Accepts(gpus: seq<Gpu>, rule: SelectionRule, i: nat)
    requires i < |gpus|
  {
    var c := CandidatesAfter(gpus, i + 1);
    c.gfx >= 0 && c.pre >= 0 && IsSuitable(rule, gpus[i].properties)
  }

  /** `n` selects the first adapter from `i` on that passes, or none if none does. */
  predicate SelectsFirstAccepted(gpus: seq<Gpu>, rule: SelectionRule, i: nat, n: Negotiation)
    requires i <= |gpus|
  {
    && (n.selected == -1 || i <= n.selected < |gpus|)
    && (n.selected >= 0 ==> Accepts(gpus, rule, n.selected))
    && (forall j :: i <= j < |gpus| && (n.selected < 0 || j < n.selected) ==> !Accepts(gpus, rule, j))
  }

  /** The number of adapters from `i` on that a loop with outcome `n` examines. */
  function Examined(gpus: seq<Gpu>, i: nat, n: Negotiation): int {
    (if n.selected >= 0 then n.selected + 1 else |gpus|) - i
  }

  /** The verdict the checks call for at adapter `j`. */
  function VerdictAt(gpus: seq<Gpu>, rule: SelectionRule, j: nat): Verdict
    requires j < |gpus|
  {
    Judge(CandidatesAfter(gpus, j + 1), rule, gpus[j].properties)
  }

  /** `n` gives every adapter it examined from `i` on the verdict its checks call for, and ends
      with the members as they stood after the last of them. */
  predicate RecordsVerdicts(gpus: seq<Gpu>, rule: SelectionRule, i: nat, n: Negotiation)
    requires i <= |gpus|
  {
    && i + |n.verdicts| <= |gpus|
    && (forall k :: 0 <= k < |n.verdicts| ==> n.verdicts[k] == VerdictAt(gpus, rule, i + k))
    && n.candidates == CandidatesAfter(gpus, i + |n.verdicts|)
  }

  /** One step of the adapter loop from adapter `i`, entered with the members at `c`. */
  lemma NegotiateFromUnfold(gpus: seq<Gpu>, rule: SelectionRule, i: nat, c: Candidates)
    requires i < |gpus|
    ensures var c' := AdapterScan(c, gpus[i]);
            var v := Judge(c', rule, gpus[i].properties);
            var rest := NegotiateFrom(gpus, rule, i + 1, c');
            NegotiateFrom(gpus, rule, i, c) == if v == Selected then Negotiation(i, c', [v])
                                               else rest.(verdicts := [v] + rest.verdicts)
  {
  }

  /** One step of the loop from adapter `i`, with the members as the first `i` scans left them. */
  lemma NegotiateFromStep(gpus: seq<Gpu>, rule: SelectionRule, i: nat)
    requires i < |gpus|
    ensures var n := NegotiateFrom(gpus, rule, i, CandidatesAfter(gpus, i));
            var v := Judge(CandidatesAfter(gpus, i + 1), rule, gpus[i].properties);
            var rest := NegotiateFrom(gpus, rule, i + 1, CandidatesAfter(gpus, i + 1));
            && (v == Selected <==> Accepts(gpus, rule, i))
            && (v == Selected ==> n == Negotiation(i, CandidatesAfter(gpus, i + 1), [v]))
            && (v != Selected ==> n == rest.(verdicts := [v] + rest.verdicts))
  {
    NegotiateFromUnfold(gpus, rule, i, CandidatesAfter(gpus, i));
  }

  lemma {:induction false} NegotiateFromSelects(gpus: seq<Gpu>, rule: SelectionRule, i: nat)
    requires i <= |gpus|
    ensures var n := NegotiateFrom(gpus, rule, i, CandidatesAfter(gpus, i));
            SelectsFirstAccepted(gpus, rule, i, n) && |n.verdicts| == Examined(gpus, i, n)
    decreases |gpus| - i
  {
    if i < |gpus| {
      NegotiateFromStep(gpus, rule, i);
      NegotiateFromSelects(gpus, rule, i + 1);
    }
  }

  lemma {:induction false} NegotiateFromRecords(gpus: seq<Gpu>, rule: SelectionRule, i: nat)
    requires i <= |gpus|
    ensures RecordsVerdicts(gpus, rule, i, NegotiateFrom(gpus, rule, i, CandidatesAfter(gpus, i)))
    decreases |gpus| - i
  {
    if i < |gpus| {
      var n := NegotiateFrom(gpus, rule, i, CandidatesAfter(gpus, i));
      var v := Judge(CandidatesAfter(gpus, i + 1), rule, gpus[i].properties);
      var rest := NegotiateFrom(gpus, rule, i + 1, CandidatesAfter(gpus, i + 1));
      NegotiateFromStep(gpus, rule, i);
      if v != Selected {
        NegotiateFromRecords(gpus, rule, i + 1);
        forall k | 0 <= k < |n.verdicts| ensures n.verdicts[k] == VerdictAt(gpus, rule, i + k) {
          if k > 0 {
            assert n.verdicts[k] == rest.verdicts[k - 1];
          }
        }
      }
    }
  }

  /**
   * First acceptance wins. The loop selects the smallest adapter index that passes, and fails
   * exactly when none does. It examines the adapters up to the selected one and no further,
   * giving each the verdict its checks call for, and leaves the members as they stood after the
   * last adapter it examined.
   */
  lemma FirstAcceptanceWins(gpus: seq<Gpu>, rule: SelectionRule)
    ensures var n := Negotiate(gpus, rule);
            && SelectsFirstAccepted(gpus, rule, 0, n)
            && |n.verdicts| == Examined(gpus, 0, n)
            && RecordsVerdicts(gpus, rule, 0, n)
  {
    NegotiateFromSelects(gpus, rule, 0);
    NegotiateFromRecords(gpus, rule, 0);
  }

  /** No adapter at all: the loop selects nothing. */
  lemma NoAdapterNoSelection(rule: SelectionRule)
    ensures Negotiate([], rule) == Negotiation(-1, NoCandidates, [])
  {
  }

  // ----------------------------------------------------------------------------------------------
  // Consequences for the default rule

  /** What one adapter's scan does to the members, in closed form over its reported families. */
  lemma AdapterScanClosedForm(c: Candidates, gpu: Gpu)
    ensures var fams := Classify(gpu.families);
            var s := AdapterScan(c, gpu);
            && s.gfx == (if c.gfx >= 0 || FirstGraphics(fams) < 0 then c.gfx else FirstGraphics(fams))
            && s.pre == (if c.pre >= 0 || FirstDrawable(fams) < 0 then c.pre else FirstDrawable(fams))
            && (FirstDrawable(fams) >= 0 <==> HasDrawableFamily(gpu))
            && (FirstDrawable(fams) >= 0 ==> FirstGraphics(fams) >= 0)
  {
    var fams := Classify(gpu.families);
    ScanFamiliesFrom(c, fams, 0);
    var p := FirstDrawable(fams);
    if p >= 0 {
      assert IsGraphics(fams[p]);
      assert Drawable(gpu.families[p]);
    }
    if HasDrawableFamily(gpu) {
      var k :| 0 <= k < |gpu.families| && Drawable(gpu.families[k]);
      assert IsDrawable(fams[k]);
    }
  }

  /**
   * Cumulatively, a presentation candidate has been found by the end of adapter n-1 exactly when
   * one of the first n adapters has a graphics family that can present; a graphics candidate has
   * then been found too.
   */
  lemma {:induction false} CandidatesAfterPresentation(gpus: seq<Gpu>, n: nat)
    requires n <= |gpus|
    ensures var c := CandidatesAfter(gpus, n);
            && (c.pre >= 0 <==> exists j :: 0 <= j < n && HasDrawableFamily(gpus[j]))
            && (c.pre >= 0 ==> c.gfx >= 0)
            && c.gfx >= -1 && c.pre >= -1
  {
    if n > 0 {
      CandidatesAfterPresentation(gpus, n - 1);
      AdapterScanClosedForm(CandidatesAfter(gpus, n - 1), gpus[n - 1]);
      if CandidatesAfter(gpus, n).pre >= 0 && !HasDrawableFamily(gpus[n - 1]) {
        var j :| 0 <= j < n - 1 && HasDrawableFamily(gpus[j]);
      }
    }
  }

  /**
   * Under `AnythingIsFine` the loop selects the first adapter that has a graphics family able to
   * present, and fails exactly when there is none. The chosen adapter is not affected by the
   * members carrying over; the chosen indices may be (see `CarriedGraphicsIndexOutlivesItsAdapter`).
   */
  lemma AnythingIsFineSelectsFirstDrawableAdapter(gpus: seq<Gpu>)
    ensures var n := Negotiate(gpus, AnythingIsFine);
            && (n.selected >= 0 <==> exists j :: 0 <= j < |gpus| && HasDrawableFamily(gpus[j]))
            && -1 <= n.selected < |gpus|
            && (n.selected >= 0 ==>
                  && HasDrawableFamily(gpus[n.selected])
                  && forall j :: 0 <= j < n.selected ==> !HasDrawableFamily(gpus[j]))
  {
    var n := Negotiate(gpus, AnythingIsFine);
    FirstAcceptanceWins(gpus, AnythingIsFine);
    forall j | 0 <= j < |gpus|
      ensures Accepts(gpus, AnythingIsFine, j) <==>
              exists j' :: 0 <= j' < j + 1 && HasDrawableFamily(gpus[j'])
    {
      CandidatesAfterPresentation(gpus, j + 1);
    }
    if n.selected >= 0 {
      var s := n.selected;
      forall j | 0 <= j < s ensures !HasDrawableFamily(gpus[j]) {
        assert !Accepts(gpus, AnythingIsFine, j);
      }
      var j' :| 0 <= j' < s + 1 && HasDrawableFamily(gpus[j']);
      assert j' == s;
    } else {
      forall j | 0 <= j < |gpus| ensures !HasDrawableFamily(gpus[j]) {
        assert !Accepts(gpus, AnythingIsFine, j);
      }
    }
  }

  /**
   * The per-adapter reading of the scan holds for an adapter the loop reaches with both members
   * still at -1: they then end as the first graphics family and the first graphics family that can
   * present of that adapter alone.
   */
  lemma UnsetCandidatesGiveFirstFamiliesOfAdapter(gpus: seq<Gpu>, i: nat)
    requires i < |gpus| && CandidatesAfter(gpus, i) == NoCandidates
    ensures var fams := Classify(gpus[i].families);
            CandidatesAfter(gpus, i + 1) == Candidates(FirstGraphics(fams), FirstDrawable(fams))
  {
    FreshScanFindsFirstFamilies(Classify(gpus[i].families));
  }

  // ----------------------------------------------------------------------------------------------
  // Worked scenarios

  function Properties(name: string): DeviceProperties {
    DeviceProperties(name, 0, 0, 0, 0)
  }

  /** One reported family of one queue with the given flags and surface support. */
  function Family(flags: bv32, present: bool): ReportedFamily {
    ReportedFamily(flags, 1, present)
  }

  /** One adapter whose only family does graphics and presents: graphics = presentation = 0. */
  lemma SingleDrawableFamilyIsChosen()
    ensures Negotiate([Gpu(Properties("a"), [Family(QueueGraphicsBit, true)])], AnythingIsFine)
            == Negotiation(0, Candidates(0, 0), [Selected])
  {
    var gpu := Gpu(Properties("a"), [Family(QueueGraphicsBit, true)]);
    var fams := Classify(gpu.families);
    assert fams[0].canDoGraphics && fams[0].canDoPresentation && fams[0].index == 0;
    assert fams[1..] == [];
    assert AdapterScan(NoCandidates, gpu) == ScanFamilies(Candidates(0, 0), []);
  }

  /** Graphics on family 0 and presentation on family 1 alone: the adapter is rejected, because a
      presentation family is looked for among the graphics families only. */
  lemma SplitGraphicsAndPresentationIsRejected(rule: SelectionRule)
    ensures Negotiate([Gpu(Properties("a"), [Family(QueueGraphicsBit, false), Family(0, true)])], rule)
            == Negotiation(-1, Candidates(0, -1), [NoPresentationQueue])
  {
    var gpu := Gpu(Properties("a"), [Family(QueueGraphicsBit, false), Family(0, true)]);
    var fams := Classify(gpu.families);
    assert fams[0].canDoGraphics && !fams[0].canDoPresentation && fams[0].index == 0;
    assert !fams[1].canDoGraphics && fams[1..][0] == fams[1];
    assert fams[1..][1..] == [];
    assert ScanFamilies(Candidates(0, -1), fams[1..]) == ScanFamilies(Candidates(0, -1), []);
    assert AdapterScan(NoCandidates, gpu) == Candidates(0, -1);
    assert Judge(Candidates(0, -1), rule, gpu.properties) == NoPresentationQueue;
    assert NegotiateFrom([gpu], rule, 1, Candidates(0, -1)) == Negotiation(-1, Candidates(0, -1), []);
  }

  /** Two adapters that both pass: the first is chosen. */
  lemma FirstOfTwoGoodAdaptersIsChosen(a: Gpu, b: Gpu, rule: SelectionRule)
    requires IsSuitable(rule, a.properties)
    requires HasDrawableFamily(a)
    ensures Negotiate([a, b], rule).selected == 0
  {
    var gpus := [a, b];
    AdapterScanClosedForm(NoCandidates, a);
    assert HasDrawableFamily(a);
    assert CandidatesAfter(gpus, 1) == AdapterScan(NoCandidates, a);
    assert Accepts(gpus, rule, 0);
    FirstAcceptanceWins(gpus, rule);
  }

  /**
   * The carried-over graphics index. Adapter 0 has a compute family and a graphics family that
   * cannot present; adapter 1 has a single family that does both. Adapter 1 is chosen, but the
   * graphics member still holds 1, found on adapter 0, an index adapter 1 does not have, and it
   * exceeds the presentation index.
   */
  lemma CarriedGraphicsIndexOutlivesItsAdapter()
    ensures var gpus := [Gpu(Properties("a"), [Family(QueueComputeBit, false), Family(QueueGraphicsBit, false)]),
                         Gpu(Properties("b"), [Family(QueueGraphicsBit, true)])];
            var n := Negotiate(gpus, AnythingIsFine);
            && n == Negotiation(1, Candidates(1, 0), [NoPresentationQueue, Selected])
            && n.candidates.gfx >= |gpus[1].families|
            && n.candidates.gfx > n.candidates.pre
  {
    var a := Gpu(Properties("a"), [Family(QueueComputeBit, false), Family(QueueGraphicsBit, false)]);
    var b := Gpu(Properties("b"), [Family(QueueGraphicsBit, true)]);
    var fa := Classify(a.families);
    assert !fa[0].canDoGraphics && fa[1].canDoGraphics && !fa[1].canDoPresentation && fa[1].index == 1;
    assert fa[1..][0] == fa[1] && fa[1..][1..] == [];
    assert ScanFamilies(NoCandidates, fa[1..]) == ScanFamilies(Candidates(1, -1), []);
    assert AdapterScan(NoCandidates, a) == Candidates(1, -1);
    var fb := Classify(b.families);
    assert fb[0].canDoGraphics && fb[0].canDoPresentation && fb[0].index == 0;
    assert fb[1..] == [];
    assert AdapterScan(Candidates(1, -1), b) == ScanFamilies(Candidates(1, 0), []);
    var gpus := [a, b];
    assert NegotiateFrom(gpus, AnythingIsFine, 1, Candidates(1, -1)) == Negotiation(1, Candidates(1, 0), [Selected]);
  }

  /**
   * The carried-over presentation index. A rule that wants adapter "b" rejects adapter "a", whose
   * family does graphics and presents; adapter "b" reports no family at all, yet it is chosen, with
   * family 0 of adapter "a" for both roles.
   */
  lemma CarriedCandidatesSelectAdapterWithoutFamilies()
    ensures var rule := Custom("b only", (p: DeviceProperties) => p.deviceName == "b");
            var gpus := [Gpu(Properties("a"), [Family(QueueGraphicsBit, true)]), Gpu(Properties("b"), [])];
            var n := Negotiate(gpus, rule);
            n == Negotiation(1, Candidates(0, 0), [RuleRejected, Selected]) && gpus[1].families == []
  {
    var rule := Custom("b only", (p: DeviceProperties) => p.deviceName == "b");
    var a := Gpu(Properties("a"), [Family(QueueGraphicsBit, true)]);
    var b := Gpu(Properties("b"), []);
    var fa := Classify(a.families);
    assert fa[0].canDoGraphics && fa[0].canDoPresentation && fa[0].index == 0;
    assert fa[1..] == [];
    assert AdapterScan(NoCandidates, a) == ScanFamilies(Candidates(0, 0), []);
    assert "a" != "b";
    assert !IsSuitable(rule, a.properties) && IsSuitable(rule, b.properties);
    assert Classify(b.families) == [];
    var gpus := [a, b];
    assert NegotiateFrom(gpus, rule, 1, Candidates(0, 0)) == Negotiation(1, Candidates(0, 0), [Selected]);
  }
}
