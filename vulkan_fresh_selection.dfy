/**
 * The adapter loop as it is evidently meant to work: both candidates are reset to -1 before each
 * adapter is scanned, so the indices of the selected adapter are families of that adapter.
 * `VulkanSelection.CarriedGraphicsIndexOutlivesItsAdapter` shows the loop as written breaking this.
 */
module VulkanFreshSelection {
  import opened VulkanTypes
  import opened VulkanSelection

  /** The loop from adapter `i` on, each adapter scanned from -1. */
  function NegotiateFreshFrom(gpus: seq<Gpu>, rule: SelectionRule, i: nat): Negotiation
    requires i <= |gpus|
    decreases |gpus| - i
  {
    if i == |gpus| then Negotiation(-1, NoCandidates, [])
    else
      var c := AdapterScan(NoCandidates, gpus[i]);
      var v := Judge(c, rule, gpus[i].properties);
      if v == Selected then Negotiation(i, c, [v])
      else
        var rest := NegotiateFreshFrom(gpus, rule, i + 1);
        rest.(verdicts := [v] + rest.verdicts)
  }

  function NegotiateFresh(gpus: seq<Gpu>, rule: SelectionRule): Negotiation {
    NegotiateFreshFrom(gpus, rule, 0)
  }

  /** Adapter `j` is usable on its own: it has a graphics family able to present, and the rule
      accepts it. */
  predicate FreshAccepts(gpus: seq<Gpu>, rule: SelectionRule, j: nat)
    requires j < |gpus|
  {
    HasDrawableFamily(gpus[j]) && IsSuitable(rule, gpus[j].properties)
  }

  /** `c` names, on the reported families `reported`, the first graphics family and the first
      graphics family that can present. */
  predicate NamesFirstFamilies(c: Candidates, reported: seq<ReportedFamily>) {
    && 0 <= c.gfx <= c.pre < |reported|
    && HasFlag(reported[c.gfx], QueueGraphicsBit)
    && Drawable(reported[c.pre])
    && (forall k :: 0 <= k < c.gfx ==> !HasFlag(reported[k], QueueGraphicsBit))
    && (forall k :: 0 <= k < c.pre ==> !Drawable(reported[k]))
  }

  /** A fresh scan of a usable adapter names its first graphics and first drawable families. */
  lemma FreshScanOfDrawableAdapter(gpu: Gpu)
    requires HasDrawableFamily(gpu)
    ensures NamesFirstFamilies(AdapterScan(NoCandidates, gpu), gpu.families)
  {
    var fams := Classify(gpu.families);
    AdapterScanClosedForm(NoCandidates, gpu);
    FreshScanOrdersCandidates(fams);
    var c := AdapterScan(NoCandidates, gpu);
    assert IsGraphics(fams[c.gfx]) && IsDrawable(fams[c.pre]);
    forall k | 0 <= k < c.gfx ensures !HasFlag(gpu.families[k], QueueGraphicsBit) {
      assert !IsGraphics(fams[k]);
    }
    forall k | 0 <= k < c.pre ensures !Drawable(gpu.families[k]) {
      assert !IsDrawable(fams[k]);
    }
  }

  /** A fresh scan passes the two checks exactly when the adapter has a drawable family. */
  lemma FreshScanPasses(gpu: Gpu)
    ensures var c := AdapterScan(NoCandidates, gpu);
            (c.gfx >= 0 && c.pre >= 0) <==> HasDrawableFamily(gpu)
  {
    AdapterScanClosedForm(NoCandidates, gpu);
  }

  lemma {:induction false} NegotiateFreshFromSelects(gpus: seq<Gpu>, rule: SelectionRule, i: nat)
    requires i <= |gpus|
    ensures var n := NegotiateFreshFrom(gpus, rule, i);
            && (n.selected == -1 || i <= n.selected < |gpus|)
            && (n.selected >= 0 ==>
                  FreshAccepts(gpus, rule, n.selected) && n.candidates == AdapterScan(NoCandidates, gpus[n.selected]))
            && (forall j :: i <= j < |gpus| && (n.selected < 0 || j < n.selected) ==>
                  !FreshAccepts(gpus, rule, j))
    decreases |gpus| - i
  {
    if i < |gpus| {
      FreshScanPasses(gpus[i]);
      NegotiateFreshFromSelects(gpus, rule, i + 1);
    }
  }

  /**
   * With the reset, the loop selects the first adapter that is usable on its own, and the two
   * indices it leaves are that adapter's first graphics family and first graphics family able to
   * present: both exist on the selected adapter, and graphics comes no later than presentation.
   */
  lemma FreshOutcomeBelongsToChosenAdapter(gpus: seq<Gpu>, rule: SelectionRule)
    ensures var n := NegotiateFresh(gpus, rule);
            && (n.selected == -1 || 0 <= n.selected < |gpus|)
            && (forall j :: 0 <= j < |gpus| && (n.selected < 0 || j < n.selected) ==>
                  !FreshAccepts(gpus, rule, j))
            && (n.selected >= 0 ==>
                  && FreshAccepts(gpus, rule, n.selected)
                  && NamesFirstFamilies(n.candidates, gpus[n.selected].families))
  {
    NegotiateFreshFromSelects(gpus, rule, 0);
    var n := NegotiateFresh(gpus, rule);
    if n.selected >= 0 {
      FreshScanOfDrawableAdapter(gpus[n.selected]);
    }
  }

  /** Under `AnythingIsFine` the reset changes the indices but not the adapter chosen. */
  lemma FreshAndAsWrittenChooseSameAdapterUnderAnythingIsFine(gpus: seq<Gpu>)
    ensures NegotiateFresh(gpus, AnythingIsFine).selected == Negotiate(gpus, AnythingIsFine).selected
  {
    FreshOutcomeBelongsToChosenAdapter(gpus, AnythingIsFine);
    AnythingIsFineSelectsFirstDrawableAdapter(gpus);
    var f, w := NegotiateFresh(gpus, AnythingIsFine), Negotiate(gpus, AnythingIsFine);
    if f.selected >= 0 {
      assert HasDrawableFamily(gpus[f.selected]);
    }
    if w.selected >= 0 {
      assert FreshAccepts(gpus, AnythingIsFine, w.selected);
    }
  }
}
