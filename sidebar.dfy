/** The sidebar's derived lists: the filtered location list, the AI-discovery count and the trail list. */
module Sidebar {
  import opened Types
  import opened Text
  import opened Seqs

  /** The prefix every trail promoted from an assistant route carries. */
  const AiTrailPrefix := "gen-trail"

  /** The tab filter, then the category filter, for one location. */
  predicate Shown(tab: ListTab, category: CategoryFilter, loc: LocationData) {
    && !(tab == Curated && loc.isGenerated)
    && !(tab == Generated && !loc.isGenerated)
    && (category.All? || loc.category == category.category)
  }

  /**
   * `displayLocations`: an order-preserving selection of `locs` that holds every location the
   * tab and category admit, as often as it occurs, and nothing else.
   */
  function DisplayLocations(locs: seq<LocationData>, tab: ListTab, category: CategoryFilter): (r: seq<LocationData>)
    ensures IsSubsequence(r, locs)
    ensures tab == Curated ==> forall l :: l in r ==> !l.isGenerated
    ensures tab == Generated ==> forall l :: l in r ==> l.isGenerated
    ensures category.Only? ==> forall l :: l in r ==> l.category == category.category
    ensures forall l :: l in locs && Shown(tab, category, l) ==> l in r
    ensures forall l :: multiset(r)[l] == if Shown(tab, category, l) then multiset(locs)[l] else 0
  {
    Filter(l => Shown(tab, category, l), locs)
  }

  /** `generatedCount`: how many locations are AI discoveries. */
  function GeneratedCount(locs: seq<LocationData>): (n: nat)
    ensures n <= |locs|
    ensures n == 0 <==> forall l :: l in locs ==> !l.isGenerated
  {
    var g := Filter((l: LocationData) => l.isGenerated, locs);
    assert g != [] ==> g[0] in g;
    |g|
  }

  /**
   * With every category shown, the curated tab and the generated tab split the locations between
   * them, and the generated tab holds exactly `generatedCount` of them.
   */
  lemma TabsPartition(locs: seq<LocationData>)
    ensures multiset(DisplayLocations(locs, Curated, All)) + multiset(DisplayLocations(locs, Generated, All)) == multiset(locs)
    ensures |DisplayLocations(locs, Curated, All)| + |DisplayLocations(locs, Generated, All)| == |locs|
    ensures |DisplayLocations(locs, Generated, All)| == GeneratedCount(locs)
  {
    var curated := (l: LocationData) => Shown(Curated, All, l);
    var generated := (l: LocationData) => Shown(Generated, All, l);
    FilterSplit(curated, generated, locs);
    FilterCongruent(generated, (l: LocationData) => l.isGenerated, locs);
  }

  /** `allTrails`: the generated trails first, then the curated ones, each block in its own order. */
  function AllTrails(generated: seq<Trail>, curated: seq<Trail>): (r: seq<Trail>)
    ensures |r| == |generated| + |curated|
    ensures r[..|generated|] == generated && r[|generated|..] == curated
  {
    generated + curated
  }

  /** `isAiTrail`: the trail's id starts with "gen-trail". */
  predicate IsAiTrail(t: Trail) {
    StartsWith(t.id, AiTrailPrefix)
  }

  /** When all generated trails and no curated one carry the AI prefix, the AI trails are exactly the leading block. */
  lemma AiTrailsLead(generated: seq<Trail>, curated: seq<Trail>)
    requires forall t :: t in generated ==> IsAiTrail(t)
    requires forall t :: t in curated ==> !IsAiTrail(t)
    ensures forall i :: 0 <= i < |AllTrails(generated, curated)| ==>
      (IsAiTrail(AllTrails(generated, curated)[i]) <==> i < |generated|)
  {
    var r := AllTrails(generated, curated);
    forall i | 0 <= i < |r| ensures IsAiTrail(r[i]) <==> i < |generated| {
      if i < |generated| {
        assert r[i] == generated[i];
      } else {
        assert r[i] == curated[i - |generated|];
      }
    }
  }

  /** `handleBaseSubmit`: the untrimmed input is looked up, and only when it is not blank. */
  function BaseSubmit(baseInput: string): (query: Option<string>)
    ensures query.Some? <==> !IsBlank(baseInput)
    ensures query.Some? ==> query.value == baseInput
  {
    if Trim(baseInput) != "" then Some(baseInput) else None
  }

  /** `isHomeBase`: the selected location is the home base when their ids agree. */
  predicate IsHomeBase(homeBase: Option<LocationData>, selected: LocationData) {
    homeBase.Some? && homeBase.value.id == selected.id
  }
}
