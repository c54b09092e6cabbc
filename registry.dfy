/**
 * The fixture registry of src/fixture/registry.rs: a cache of built profiles keyed by
 * "manufacturer/fixture/mode", construction of patched fixtures, the mode list of a
 * fixture and a case-insensitive, sorted search. The loader that reads fixture files
 * is a partial map from (manufacturer, fixture) to the parsed definition.
 */
module Registry {
  import opened Wrappers
  import opened Ints
  import opened Text
  import opened Patch

  /** What the loader can load: a missing pair stands for every way loading can fail. */
  type Library = map<(string, string), OflFixture>

  datatype RegistryError =
    | LoadFailed(manufacturer: string, fixtureName: string)
    | ModeNotFound(modeName: string, manufacturer: string, fixtureName: string)
    | DiscoveryFailed

  /** The cache key `"{manufacturer}/{fixture}/{mode}"`. */
  function CacheKey(manufacturer: string, fixtureName: string, modeName: string): string {
    manufacturer + "/" + fixtureName + "/" + modeName
  }

  /** Names that contain '/' can share a key, so a cached profile can answer for another fixture. */
  lemma CacheKeysCollide()
    ensures CacheKey("a/b", "c", "d") == CacheKey("a", "b/c", "d")
    ensures ("a/b", "c") != ("a", "b/c")
  {
  }

  /** `modes.iter().find(|m| m.name == mode_name)`: the first mode with that name. */
  function FindMode(modes: seq<OflMode>, modeName: string): (r: Option<OflMode>)
    ensures r.Some? ==> exists i | 0 <= i < |modes| :: modes[i] == r.value && forall j | 0 <= j < i :: modes[j].name != modeName
    ensures r.Some? ==> r.value.name == modeName
    ensures r.None? ==> forall i | 0 <= i < |modes| :: modes[i].name != modeName
  {
    if modes == [] then None
    else if modes[0].name == modeName then Some(modes[0])
    else
      var rest := FindMode(modes[1..], modeName);
      assert rest.Some? ==> exists i | 0 <= i < |modes[1..]| :: modes[1..][i] == rest.value && forall j | 0 <= j < i :: modes[1..][j].name != modeName;
      rest
  }

  /** `get_modes_for_fixture`: the mode names in declaration order. */
  function ModesForFixture(library: Library, manufacturer: string, fixtureName: string): (r: Result<seq<string>, RegistryError>)
    ensures r.Ok? <==> (manufacturer, fixtureName) in library
    ensures r.Err? ==> r == Err(LoadFailed(manufacturer, fixtureName))
    ensures r.Ok? ==> |r.value| == |library[(manufacturer, fixtureName)].modes|
    ensures r.Ok? ==> forall i | 0 <= i < |r.value| :: r.value[i] == library[(manufacturer, fixtureName)].modes[i].name
  {
    if (manufacturer, fixtureName) in library
    then Ok(seq(|library[(manufacturer, fixtureName)].modes|, i requires 0 <= i < |library[(manufacturer, fixtureName)].modes| =>
           library[(manufacturer, fixtureName)].modes[i].name))
    else Err(LoadFailed(manufacturer, fixtureName))
  }

  /** A profile can be requested for exactly the modes `get_modes_for_fixture` lists. */
  lemma ListedModesResolve(library: Library, manufacturer: string, fixtureName: string, modeName: string)
    requires (manufacturer, fixtureName) in library
    ensures modeName in ModesForFixture(library, manufacturer, fixtureName).value
        <==> FindMode(library[(manufacturer, fixtureName)].modes, modeName).Some?
  {
    var modes := library[(manufacturer, fixtureName)].modes;
    var names := ModesForFixture(library, manufacturer, fixtureName).value;
    if modeName in names {
      var i :| 0 <= i < |names| && names[i] == modeName;
      assert modes[i].name == modeName;
    }
  }

  /** The uncached meaning of a profile request: load the fixture, find the mode, build the profile. */
  function ProfileFor(library: Library, manufacturer: string, fixtureName: string, modeName: string): (r: Result<FixtureProfile, RegistryError>)
    ensures (manufacturer, fixtureName) !in library ==> r == Err(LoadFailed(manufacturer, fixtureName))
    ensures r.Ok? ==> exists mode | mode in library[(manufacturer, fixtureName)].modes ::
      mode.name == modeName && r.value == Profile(library[(manufacturer, fixtureName)], mode)
    ensures (manufacturer, fixtureName) in library ==>
      (r.Ok? <==> exists i | 0 <= i < |library[(manufacturer, fixtureName)].modes| ::
                    library[(manufacturer, fixtureName)].modes[i].name == modeName)
    // the profile is built from the first mode of that name
    ensures r.Ok? ==> var modes := library[(manufacturer, fixtureName)].modes;
      exists i | 0 <= i < |modes| :: modes[i].name == modeName && (forall j | 0 <= j < i :: modes[j].name != modeName)
        && r.value == Profile(library[(manufacturer, fixtureName)], modes[i])
    ensures r.Err? && (manufacturer, fixtureName) in library ==> r == Err(ModeNotFound(modeName, manufacturer, fixtureName))
  {
    if (manufacturer, fixtureName) !in library then Err(LoadFailed(manufacturer, fixtureName))
    else
      var fixture := library[(manufacturer, fixtureName)];
      match FindMode(fixture.modes, modeName)
      case None => Err(ModeNotFound(modeName, manufacturer, fixtureName))
      case Some(mode) => Ok(Profile(fixture, mode))
  }

  /** One `get_fixture_profile` call on a cache: the answer and the cache afterwards. */
  function Lookup(cache: map<string, FixtureProfile>, library: Library, manufacturer: string, fixtureName: string, modeName: string)
    : (r: (Result<FixtureProfile, RegistryError>, map<string, FixtureProfile>))
    ensures var key := CacheKey(manufacturer, fixtureName, modeName);
      key in cache ==> r == (Ok(cache[key]), cache)
    ensures var key := CacheKey(manufacturer, fixtureName, modeName);
      key !in cache ==> r.0 == ProfileFor(library, manufacturer, fixtureName, modeName)
    ensures r.0.Err? ==> r.1 == cache
    ensures r.0.Ok? ==> r.1 == cache[CacheKey(manufacturer, fixtureName, modeName) := r.0.value]
  {
    var key := CacheKey(manufacturer, fixtureName, modeName);
    if key in cache then (Ok(cache[key]), cache)
    else
      var built := ProfileFor(library, manufacturer, fixtureName, modeName);
      if built.Ok? then (built, cache[key := built.value]) else (built, cache)
  }

  /** Asking twice gives the same answer as asking once, and the second request changes nothing. */
  lemma LookupIdempotent(cache: map<string, FixtureProfile>, library: Library, manufacturer: string, fixtureName: string, modeName: string)
    ensures var first := Lookup(cache, library, manufacturer, fixtureName, modeName);
      Lookup(first.1, library, manufacturer, fixtureName, modeName) == first
  {
  }

  /** `create_patched_fixture` on a built profile: id "manufacturer/fixture", the rest copied. */
  function PatchedFrom(profile: FixtureProfile, manufacturer: string, fixtureName: string, channel: nat, dmxStart: u16, labelText: string)
    : (f: PatchedFixture)
    ensures f.id == manufacturer + "/" + fixtureName && f.profile == profile
    ensures f.channel == channel && f.dmxStart == dmxStart && f.labelText == labelText
  {
    PatchedFixture(manufacturer + "/" + fixtureName, channel, profile, dmxStart, labelText)
  }

  // ---------------------------------------------------------------------------
  // Search

  /** `(String, String)` ordering: by manufacturer, then by fixture name. */
  predicate PairLe(p: (string, string), q: (string, string)) {
    if p.0 == q.0 then StrLe(p.1, q.1) else StrLe(p.0, q.0)
  }

  lemma PairLeTotal(p: (string, string), q: (string, string))
    ensures PairLe(p, q) || PairLe(q, p)
  {
    StrLeTotal(p.0, q.0);
    StrLeTotal(p.1, q.1);
  }

  lemma PairLeAntisymmetric(p: (string, string), q: (string, string))
    requires PairLe(p, q) && PairLe(q, p)
    ensures p == q
  {
    if p.0 == q.0 {
      StrLeAntisymmetric(p.1, q.1);
    } else {
      StrLeAntisymmetric(p.0, q.0);
    }
  }

  lemma PairLeTransitive(p: (string, string), q: (string, string), r: (string, string))
    requires PairLe(p, q) && PairLe(q, r)
    ensures PairLe(p, r)
  {
    if p.0 == q.0 && q.0 == r.0 {
      StrLeTransitive(p.1, q.1, r.1);
    } else if p.0 != q.0 && q.0 != r.0 {
      StrLeTransitive(p.0, q.0, r.0);
      if p.0 == r.0 {
        StrLeAntisymmetric(p.0, q.0);
      }
    }
  }

  predicate Sorted(s: seq<(string, string)>) {
    forall i, j | 0 <= i < j < |s| :: PairLe(s[i], s[j])
  }

  /** Inserts `x` before the first element it does not exceed. */
  function Insert(x: (string, string), s: seq<(string, string)>): (r: seq<(string, string)>)
    ensures multiset(r) == multiset(s) + multiset{x}
    ensures |r| == |s| + 1
  {
    if s == [] || PairLe(x, s[0]) then [x] + s
    else
      assert s == [s[0]] + s[1..];
      [s[0]] + Insert(x, s[1..])
  }

  lemma {:induction false} InsertSorted(x: (string, string), s: seq<(string, string)>)
    requires Sorted(s)
    ensures Sorted(Insert(x, s))
    decreases |s|
  {
    if s == [] || PairLe(x, s[0]) {
      var r := [x] + s;
      forall i, j | 0 <= i < j < |r| ensures PairLe(r[i], r[j]) {
        if i == 0 && j > 1 {
          PairLeTransitive(x, s[0], s[j - 1]);
        }
      }
    } else {
      PairLeTotal(x, s[0]);
      InsertSorted(x, s[1..]);
      var rest := Insert(x, s[1..]);
      var r := [s[0]] + rest;
      forall i, j | 0 <= i < j < |r| ensures PairLe(r[i], r[j]) {
        if i == 0 {
          assert r[j] in multiset(rest);
          assert r[j] in multiset(s[1..]) + multiset{x};
          if r[j] != x {
            var k :| 0 <= k < |s[1..]| && s[1..][k] == r[j];
            assert s[k + 1] == r[j];
          }
        }
      }
    }
  }

  /** `results.sort()`: the same pairs in ascending order. */
  function SortPairs(s: seq<(string, string)>): (r: seq<(string, string)>)
    ensures multiset(r) == multiset(s)
    ensures Sorted(r)
  {
    if s == [] then []
    else
      assert s == [s[0]] + s[1..];
      var rest := SortPairs(s[1..]);
      InsertSorted(s[0], rest);
      Insert(s[0], rest)
  }

  lemma MultisetCancel<T>(x: multiset<T>, y: multiset<T>, e: T)
    requires x + multiset{e} == y + multiset{e}
    ensures x == y
  {
    forall z ensures x[z] == y[z] {
      assert (x + multiset{e})[z] == (y + multiset{e})[z];
    }
  }

  /** The least element of a sorted list is its head. */
  lemma SortedHeadIsLeast(a: seq<(string, string)>, x: (string, string))
    requires Sorted(a) && x in a
    ensures PairLe(a[0], x) || a[0] == x
  {
  }

  /** Two sorted lists of the same pairs are equal: the result does not depend on the order the pairs were found in. */
  lemma {:induction false} SortedUnique(a: seq<(string, string)>, b: seq<(string, string)>)
    requires Sorted(a) && Sorted(b) && multiset(a) == multiset(b)
    ensures a == b
    decreases |a|
  {
    if a != [] {
      assert a[0] in multiset(a);
      assert b != [];
      assert b[0] in multiset(b);
      assert a[0] in b && b[0] in a;
      SortedHeadIsLeast(a, b[0]);
      SortedHeadIsLeast(b, a[0]);
      if a[0] != b[0] {
        PairLeAntisymmetric(a[0], b[0]);
      }
      assert a == [a[0]] + a[1..] && b == [b[0]] + b[1..];
      assert multiset(a) == multiset(a[1..]) + multiset{a[0]};
      assert multiset(b) == multiset(b[1..]) + multiset{b[0]};
      assert multiset(a[1..]) + multiset{a[0]} == multiset(b[1..]) + multiset{a[0]};
      MultisetCancel(multiset(a[1..]), multiset(b[1..]), a[0]);
      SortedUnique(a[1..], b[1..]);
    }
  }

  /** The pairs one manufacturer contributes: its fixtures whose lower-cased name contains `needle`. */
  function GroupMatches(manufacturer: string, fixtures: seq<string>, needle: string): seq<(string, string)>
    decreases |fixtures|
  {
    if fixtures == [] then []
    else
      var last := fixtures[|fixtures| - 1];
      GroupMatches(manufacturer, fixtures[..|fixtures| - 1], needle)
        + if Contains(AsciiLower(last), needle) then [(manufacturer, last)] else []
  }

  /** The search loop over every (manufacturer, fixtures) group, before sorting. */
  function Matches(groups: seq<(string, seq<string>)>, needle: string): seq<(string, string)>
    decreases |groups|
  {
    if groups == [] then []
    else
      var last := groups[|groups| - 1];
      Matches(groups[..|groups| - 1], needle) + GroupMatches(last.0, last.1, needle)
  }

  lemma {:induction false} GroupMatchesMembers(manufacturer: string, fixtures: seq<string>, needle: string, p: (string, string))
    ensures p in GroupMatches(manufacturer, fixtures, needle)
        <==> p.0 == manufacturer && p.1 in fixtures && Contains(AsciiLower(p.1), needle)
    decreases |fixtures|
  {
    if fixtures != [] {
      var init := fixtures[..|fixtures| - 1];
      GroupMatchesMembers(manufacturer, init, needle, p);
      assert fixtures == init + [fixtures[|fixtures| - 1]];
    }
  }

  /** A pair is found exactly when some group lists it and its lower-cased name contains the needle. */
  lemma {:induction false} MatchesMembers(groups: seq<(string, seq<string>)>, needle: string, p: (string, string))
    ensures p in Matches(groups, needle)
        <==> Contains(AsciiLower(p.1), needle) && exists g | g in groups :: g.0 == p.0 && p.1 in g.1
    decreases |groups|
  {
    if groups != [] {
      var init := groups[..|groups| - 1];
      var last := groups[|groups| - 1];
      MatchesMembers(init, needle, p);
      GroupMatchesMembers(last.0, last.1, needle, p);
      assert groups == init + [last];
      assert forall g :: g in groups <==> g in init || g == last;
    }
  }

  lemma {:induction false} MatchesAppend(a: seq<(string, seq<string>)>, b: seq<(string, seq<string>)>, needle: string)
    ensures Matches(a + b, needle) == Matches(a, needle) + Matches(b, needle)
    decreases |b|
  {
    if b == [] {
      assert a + b == a;
    } else {
      var init, last := b[..|b| - 1], b[|b| - 1];
      assert (a + b)[..|a + b| - 1] == a + init;
      assert (a + b)[|a + b| - 1] == last;
      var tail := GroupMatches(last.0, last.1, needle);
      assert Matches(a + b, needle) == Matches(a + init, needle) + tail;
      assert Matches(b, needle) == Matches(init, needle) + tail;
      MatchesAppend(a, init, needle);
    }
  }

  /** Visiting the groups in another order finds the same pairs, so the sorted result is the same. */
  lemma {:induction false} MatchesIgnoreGroupOrder(a: seq<(string, seq<string>)>, b: seq<(string, seq<string>)>, needle: string)
    requires multiset(a) == multiset(b)
    ensures multiset(Matches(a, needle)) == multiset(Matches(b, needle))
    decreases |a|
  {
    if a != [] {
      var init := a[..|a| - 1];
      var last := a[|a| - 1];
      assert a == init + [last];
      assert last in multiset(b);
      var k :| 0 <= k < |b| && b[k] == last;
      var before, after := b[..k], b[k + 1..];
      assert b == before + [last] + after;
      assert multiset(a) == multiset(init) + multiset{last};
      assert multiset(b) == multiset(before + after) + multiset{last};
      MultisetCancel(multiset(init), multiset(before + after), last);
      MatchesIgnoreGroupOrder(init, before + after, needle);
      var found := GroupMatches(last.0, last.1, needle);
      var fromBefore, fromAfter := Matches(before, needle), Matches(after, needle);
      MatchesAppend(before, after, needle);
      MatchesAppend(before + [last], after, needle);
      MatchesAppend(before, [last], needle);
      assert Matches([last], needle) == found;
      assert Matches(a, needle) == Matches(init, needle) + found;
      assert Matches(b, needle) == fromBefore + found + fromAfter;
      assert multiset(Matches(init, needle)) == multiset(fromBefore) + multiset(fromAfter);
    }
  }

  /** `search_fixtures` over two discovery orders of the same groups gives the same list. */
  lemma SearchIgnoresDiscoveryOrder(a: seq<(string, seq<string>)>, b: seq<(string, seq<string>)>, needle: string)
    requires multiset(a) == multiset(b)
    ensures SortPairs(Matches(a, needle)) == SortPairs(Matches(b, needle))
  {
    MatchesIgnoreGroupOrder(a, b, needle);
    SortedUnique(SortPairs(Matches(a, needle)), SortPairs(Matches(b, needle)));
  }

  class FixtureRegistry {
    /** The fixture definitions the loader can produce. */
    const library: Library
    /** `profile_cache`, keyed by `CacheKey`. */
    var profileCache: map<string, FixtureProfile>

    /** `new`: an empty cache over the given library. */
    constructor (library: Library)
      ensures this.library == library && profileCache == map[]
    {
      this.library := library;
      profileCache := map[];
    }

    /** `get_fixture_profile`: a cached profile if there is one, otherwise built and cached. */
    method GetFixtureProfile(manufacturer: string, fixtureName: string, modeName: string)
      returns (r: Result<FixtureProfile, RegistryError>)
      modifies this
      ensures (r, profileCache) == Lookup(old(profileCache), library, manufacturer, fixtureName, modeName)
    {
      var cacheKey := CacheKey(manufacturer, fixtureName, modeName);
      if cacheKey in profileCache {
        return Ok(profileCache[cacheKey]);
      }
      if (manufacturer, fixtureName) !in library {
        return Err(LoadFailed(manufacturer, fixtureName));
      }
      var fixture := library[(manufacturer, fixtureName)];
      var mode := FindMode(fixture.modes, modeName);
      if mode.None? {
        return Err(ModeNotFound(modeName, manufacturer, fixtureName));
      }
      var profile := FromOflFixture(fixture, mode.value);
      profileCache := profileCache[cacheKey := profile];
      r := Ok(profile);
    }

    /** `create_patched_fixture`: the profile request's error, or the fixture built on its profile. */
    method CreatePatchedFixture(manufacturer: string, fixtureName: string, modeName: string,
                                channel: nat, dmxStart: u16, labelText: string)
      returns (r: Result<PatchedFixture, RegistryError>)
      modifies this
      ensures var lookup := Lookup(old(profileCache), library, manufacturer, fixtureName, modeName);
        && profileCache == lookup.1
        && (lookup.0.Err? ==> r == Err(lookup.0.error))
        && (lookup.0.Ok? ==> r == Ok(PatchedFrom(lookup.0.value, manufacturer, fixtureName, channel, dmxStart, labelText)))
    {
      var profile := GetFixtureProfile(manufacturer, fixtureName, modeName);
      if profile.Err? {
        return Err(profile.error);
      }
      r := Ok(PatchedFixture(manufacturer + "/" + fixtureName, channel, profile.value, dmxStart, labelText));
    }

    /**
     * `search_fixtures`: `discovered` is what `discover_all_fixtures` returned, its groups
     * in whatever order the map yields them.
     */
    method SearchFixtures(searchTerm: string, discovered: Result<seq<(string, seq<string>)>, RegistryError>)
      returns (r: Result<seq<(string, string)>, RegistryError>)
      ensures discovered.Err? ==> r == Err(discovered.error)
      ensures discovered.Ok? ==> r.Ok? && Sorted(r.value)
      ensures discovered.Ok? ==> multiset(r.value) == multiset(Matches(discovered.value, AsciiLower(searchTerm)))
    {
      if discovered.Err? {
        return Err(discovered.error);
      }
      var allFixtures := discovered.value;
      var searchLower := AsciiLower(searchTerm);
      var results: seq<(string, string)> := [];
      var i := 0;
      while i < |allFixtures|
        invariant 0 <= i <= |allFixtures|
        invariant results == Matches(allFixtures[..i], searchLower)
      {
        var (manufacturer, fixtures) := allFixtures[i];
        var j := 0;
        while j < |fixtures|
          invariant 0 <= j <= |fixtures|
          invariant results == Matches(allFixtures[..i], searchLower) + GroupMatches(manufacturer, fixtures[..j], searchLower)
        {
          if Contains(AsciiLower(fixtures[j]), searchLower) {
            results := results + [(manufacturer, fixtures[j])];
          }
          assert fixtures[..j + 1][..j] == fixtures[..j];
          j := j + 1;
        }
        assert fixtures[..j] == fixtures;
        assert allFixtures[..i + 1][..i] == allFixtures[..i];
        i := i + 1;
      }
      assert allFixtures[..i] == allFixtures;
      r := Ok(SortPairs(results));
    }
  }
}
