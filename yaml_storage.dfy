/**
 * The file-backed profile store: the profiles read from the configuration
 * file, keyed by id.  Every change is followed by a flush that rewrites the
 * file; the flush's outcome is given, since writing the file is not modelled.
 */
module YamlStorage {
  import opened Wrappers
  import opened FlatProfile

  datatype StorageError = ProfileNotFound(id: string) | FlushFailed(reason: string)

  /** The map a list of profiles loads into: each under its id, later ones winning. */
  function Keyed(list: seq<Profile>): map<string, Profile>
  {
    if list == [] then map[]
    else Keyed(list[..|list| - 1])[Id(list[|list| - 1]) := list[|list| - 1]]
  }

  /** Every profile is stored under its own id. */
  predicate KeyedById(m: map<string, Profile>)
  {
    forall k :: k in m ==> Id(m[k]) == k
  }

  /** Loading keys each profile by its own id. */
  lemma {:induction false} KeyedKeysById(list: seq<Profile>)
    ensures KeyedById(Keyed(list))
  {
    if list != [] {
      KeyedKeysById(list[..|list| - 1]);
    }
  }

  /** Some profile of the list has id `k`. */
  predicate Listed(list: seq<Profile>, k: string)
  {
    exists i :: 0 <= i < |list| && Id(list[i]) == k
  }

  /** An id is listed in a non-empty list when the last profile or an earlier one has it. */
  lemma ListedSplit(list: seq<Profile>, k: string)
    requires list != []
    ensures Listed(list, k) <==> Listed(list[..|list| - 1], k) || Id(list[|list| - 1]) == k
  {
    var n := |list| - 1;
    var init := list[..n];
    if Listed(list, k) {
      var i :| 0 <= i < |list| && Id(list[i]) == k;
      if i < n {
        assert init[i] == list[i];
      }
    }
    if Listed(init, k) {
      var i :| 0 <= i < n && Id(init[i]) == k;
      assert list[i] == init[i];
    } else if Id(list[n]) == k {
      assert 0 <= n < |list|;
    }
  }

  /** Loading keeps exactly the ids of the list. */
  lemma {:induction false} KeyedDomain(list: seq<Profile>)
    ensures forall k :: k in Keyed(list) <==> Listed(list, k)
  {
    if list != [] {
      var init, last := list[..|list| - 1], list[|list| - 1];
      KeyedDomain(init);
      var m := Keyed(init);
      assert Keyed(list) == m[Id(last) := last];
      forall k
        ensures k in Keyed(list) <==> Listed(list, k)
      {
        ListedSplit(list, k);
      }
    }
  }

  /** The id of a profile that no later profile shares is bound to that profile. */
  lemma {:induction false} KeyedHoldsLast(list: seq<Profile>, i: nat)
    requires i < |list|
    requires forall j :: i < j < |list| ==> Id(list[j]) != Id(list[i])
    ensures Id(list[i]) in Keyed(list) && Keyed(list)[Id(list[i])] == list[i]
  {
    var init := list[..|list| - 1];
    if i < |init| {
      assert init[i] == list[i];
      forall j | i < j < |init|
        ensures Id(init[j]) != Id(init[i])
      {
        assert init[j] == list[j];
      }
      KeyedHoldsLast(init, i);
    }
  }

  /** A duplicate id keeps the later profile. */
  lemma LaterDuplicateWins(list: seq<Profile>, p: Profile, q: Profile)
    requires Id(p) == Id(q)
    ensures Keyed(list + [p, q])[Id(p)] == q
  {
    var l := list + [p, q];
    assert l[..|l| - 1] == list + [p];
  }

  class Storage {
    var profiles: map<string, Profile>

    ghost predicate Valid()
      reads this
    {
      KeyedById(profiles)
    }

    /** `default`: inserts the profiles read from the file one by one. */
    constructor Load(list: seq<Profile>)
      ensures Valid() && profiles == Keyed(list)
    {
      var m: map<string, Profile> := map[];
      for i := 0 to |list|
        invariant m == Keyed(list[..i])
      {
        var x := list[i];
        assert list[..i + 1][..i] == list[..i];
        m := m[Id(x) := x];
      }
      assert list[..|list|] == list;
      KeyedKeysById(list);
      profiles := m;
    }

    /** The profile stored under `id`, or `ProfileNotFound(id)`. */
    function Get(id: string): (r: Result<Profile, StorageError>)
      reads this
      requires Valid()
      ensures r.Ok? <==> id in profiles
      ensures r.Ok? ==> r.value == profiles[id] && Id(r.value) == id
      ensures r.Err? ==> r.error == ProfileNotFound(id)
    {
      if id in profiles then Ok(profiles[id]) else Err(ProfileNotFound(id))
    }

    /** Stores `p` under its id, then flushes; the result is the flush's. */
    method Put(p: Profile, flush: Option<string>) returns (r: Result<(), StorageError>)
      requires Valid()
      modifies this
      ensures Valid()
      ensures profiles == old(profiles)[Id(p) := p]
      ensures Get(Id(p)) == Ok(p)
      ensures r == (if flush.Some? then Err(FlushFailed(flush.value)) else Ok(()))
    {
      profiles := profiles[Id(p) := p];
      r := Flush(flush);
    }

    /** Removes the profile stored under `id`: an absent id fails before any flush; a
      * present one stays removed even when the flush then fails. */
    method Remove(id: string, flush: Option<string>) returns (r: Result<Profile, StorageError>)
      requires Valid()
      modifies this
      ensures Valid()
      ensures id !in old(profiles) ==> r == Err(ProfileNotFound(id)) && profiles == old(profiles)
      ensures id in old(profiles) ==>
        && profiles == old(profiles) - {id}
        && r == (if flush.Some? then Err(FlushFailed(flush.value)) else Ok(old(profiles)[id]))
      ensures Get(id) == Err(ProfileNotFound(id))
    {
      if id !in profiles {
        return Err(ProfileNotFound(id));
      }
      var removed := profiles[id];
      profiles := profiles - {id};
      var flushed := Flush(flush);
      if flushed.Err? {
        return Err(flushed.error);
      }
      r := Ok(removed);
    }

    /** The stored profiles; under `Valid` each appears once, under its own id. */
    function Iter(): (vs: set<Profile>)
      reads this
      requires Valid()
      ensures forall p :: p in vs <==> Id(p) in profiles && profiles[Id(p)] == p
      ensures |vs| == |profiles|
    {
      ValuesMatchKeys(profiles);
      profiles.Values
    }

    /** Writing the file, whose failure (if any) is given. */
    method Flush(flush: Option<string>) returns (r: Result<(), StorageError>)
      ensures r == (if flush.Some? then Err(FlushFailed(flush.value)) else Ok(()))
    {
      if flush.Some? {
        r := Err(FlushFailed(flush.value));
      } else {
        r := Ok(());
      }
    }
  }

  /** When every profile sits under its own id, the values and the keys correspond one to
    * one. */
  lemma {:induction false} ValuesMatchKeys(m: map<string, Profile>)
    requires KeyedById(m)
    ensures |m.Values| == |m|
    decreases |m|
  {
    if m != map[] {
      var k :| k in m;
      var rest := m - {k};
      ValuesMatchKeys(rest);
      forall v
        ensures v in m.Values <==> v in rest.Values + {m[k]}
      {
        if v in m.Values {
          var k' :| k' in m && m[k'] == v;
          if k' != k {
            assert k' in rest && rest[k'] == v;
          }
        }
        if v in rest.Values {
          var k' :| k' in rest && rest[k'] == v;
          assert k' in m && m[k'] == v;
        }
      }
      assert m.Values == rest.Values + {m[k]};
      assert m[k] !in rest.Values;
    }
  }
}
