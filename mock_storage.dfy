/**
 * The in-memory profile store: a map from profile id to profile, seeded with
 * two profiles, the second reached through the first.
 */
module MockStorage {
  import opened Wrappers
  import opened Formatting
  import opened Profiles
  import Sessions

  datatype StorageError = NotFound

  /** `ssh://sun@localhost:22` and `ssh://root@localhost:6022`. */
  const SunId: string := Scheme + "sun@localhost:22"
  const RootId: string := Scheme + "root@localhost:6022"

  /** The directly reachable seed profile. */
  function SunProfile(): Profile
  {
    Profile(None, SSH(SshProfile("sun", "localhost", 22, Password("pangpang"), "")))
  }

  /** The seed profile reached through the first. */
  function RootProfile(): Profile
  {
    Profile(Some(SunId), SSH(SshProfile("root", "localhost", 6022, Password("123456"), "")))
  }

  /** Every profile is stored under its own id. */
  predicate KeyedById(profiles: map<string, Profile>)
  {
    forall k :: k in profiles ==> Id(profiles[k]) == k
  }

  lemma SeedIds()
    ensures Id(SunProfile()) == SunId && Id(RootProfile()) == RootId
  {
    SunEndpoint();
    RootEndpoint();
    assert Id(SunProfile()) == Scheme + SshId(SunProfile().protocol.ssh);
    assert Id(RootProfile()) == Scheme + SshId(RootProfile().protocol.ssh);
  }

  lemma SunEndpoint()
    ensures SshId(SunProfile().protocol.ssh) == "sun@localhost:22"
  {
    assert Decimal(22) == "22" by {
      assert DigitChar(2) == '2';
      assert Decimal(22) == Decimal(2) + [DigitChar(2)];
    }
  }

  lemma RootEndpoint()
    ensures SshId(RootProfile().protocol.ssh) == "root@localhost:6022"
  {
    RootPortDigits();
  }

  lemma RootPortDigits()
    ensures Decimal(6022) == "6022"
  {
    assert DigitChar(0) == '0' && DigitChar(2) == '2' && DigitChar(6) == '6';
    assert Decimal(60) == Decimal(6) + [DigitChar(0)];
    assert Decimal(602) == Decimal(60) + [DigitChar(2)];
    assert Decimal(6022) == Decimal(602) + [DigitChar(2)];
  }

  /** The seeded store is a two-link chain: opening the second profile opens the first
    * beneath it, over the local session. */
  lemma {:induction false} SeedChainIsAcyclic()
    ensures var store := map[SunId := SunProfile(), RootId := RootProfile()];
      && Sessions.ChainEnds(store, RootId, 1)
      && Sessions.ChainLength(store, RootId, 1) == 2
      && Sessions.OpenSession(store, RootId, 1).Ok?
      && Sessions.OpenSession(store, RootId, 1).value
         == Sessions.SshSession(RootProfile().protocol.ssh,
              Sessions.SshSession(SunProfile().protocol.ssh, Sessions.LocalSession))
  {
    var store := map[SunId := SunProfile(), RootId := RootProfile()];
    assert SunId != RootId;
    assert store[RootId].transport == Some(SunId);
    assert Sessions.ChainEnds(store, SunId, 0);
  }

  class Storage {
    var profiles: map<string, Profile>

    ghost predicate Valid()
      reads this
    {
      KeyedById(profiles)
    }

    /** `default`: the seed profile, then a copy of it re-pointed at another endpoint and
      * routed through the first. */
    constructor Default()
      ensures Valid()
      ensures profiles == map[SunId := SunProfile(), RootId := RootProfile()]
    {
      var m: map<string, Profile> := map[];
      var profile := Profile(None, SSH(SshProfile("sun", "localhost", 22, Password("pangpang"), "")));
      m := m[Id(profile) := profile];
      profile := profile.(transport := Some(Id(profile)));
      var ssh := profile.protocol.ssh;
      ssh := ssh.(address := "localhost", port := 6022, username := "root", authMethod := Password("123456"));
      profile := profile.(protocol := SSH(ssh));
      m := m[Id(profile) := profile];
      SeedIds();
      profiles := m;
    }

    /** The profile stored under `id`. */
    function Get(id: string): (r: Result<Profile, StorageError>)
      reads this
      requires Valid()
      ensures r.Ok? <==> id in profiles
      ensures r.Ok? ==> r.value == profiles[id] && Id(r.value) == id
      ensures r.Err? ==> r.error == NotFound
    {
      if id in profiles then Ok(profiles[id]) else Err(NotFound)
    }

    /** Stores `p` under its id, replacing any profile stored there. */
    method Put(p: Profile) returns (r: Result<(), StorageError>)
      requires Valid()
      modifies this
      ensures Valid() && r == Ok(())
      ensures profiles == old(profiles)[Id(p) := p]
      ensures Get(Id(p)) == Ok(p)
      ensures forall k :: k != Id(p) ==> Get(k) == old(Get(k))
    {
      profiles := profiles[Id(p) := p];
      r := Ok(());
    }

    /** Removes and returns the profile stored under `id`. */
    method Delete(id: string) returns (r: Result<Profile, StorageError>)
      requires Valid()
      modifies this
      ensures Valid()
      ensures id in old(profiles) ==> r == Ok(old(profiles)[id]) && profiles == old(profiles) - {id}
      ensures id !in old(profiles) ==> r == Err(NotFound) && profiles == old(profiles)
      ensures Get(id) == Err(NotFound)
    {
      if id in profiles {
        r := Ok(profiles[id]);
        profiles := profiles - {id};
      } else {
        r := Err(NotFound);
      }
    }
  }
}
