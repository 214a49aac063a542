/** The static seed data of the client: the three mock profiles shown on the
    discovery screen, the two mock chat messages, and the first-match lookup
    the router performs on the profile list (`Array.prototype.find`). */
module Profiles {
  import opened Wrappers

  /** The three bundled sample images a profile can refer to. */
  datatype Photo = FemaleSample | MaleSample | CoupleSample

  datatype ProfileKind = Single | Couple

  /** A member profile; the long biography text is not modelled. */
  datatype Profile = Profile(
    id: string,
    name: string,
    age: nat,
    location: string,
    photos: seq<Photo>,
    interests: seq<string>,
    isVerified: bool,
    isPremium: bool,
    kind: ProfileKind)

  /** A chat message; its text and timestamp are not modelled. */
  datatype Message = Message(id: string, senderId: string, senderName: string)

  const SeedProfiles: seq<Profile> := [
    Profile("1", "Alexandra", 28, "Manhattan, NY", [FemaleSample],
            ["Wine Tasting", "Yoga", "Travel", "Fine Dining", "Art", "Dancing", "Hiking", "Photography"],
            true, true, Single),
    Profile("2", "Marcus & Sarah", 32, "Brooklyn, NY", [CoupleSample],
            ["Dancing", "Travel", "Fine Dining", "Music", "Art Galleries", "Wine"],
            true, false, Couple),
    Profile("3", "James", 35, "Chelsea, NY", [MaleSample],
            ["Business", "Fitness", "Wine", "Travel", "Fine Arts", "Jazz"],
            false, true, Single)
  ]

  const SeedMessages: seq<Message> := [
    Message("1", "1", "Alexandra"),
    Message("2", "current-user", "You")
  ]

  /** `i` is the position of the first profile of `ps` whose id is `id`. */
  ghost predicate IsFirstWithId(ps: seq<Profile>, id: string, i: int)
  {
    && 0 <= i < |ps|
    && ps[i].id == id
    && forall j :: 0 <= j < i ==> ps[j].id != id
  }

  /** Some profile of `ps` has id `id`. */
  ghost predicate HasId(ps: seq<Profile>, id: string)
  {
    exists i :: 0 <= i < |ps| && ps[i].id == id
  }

  /** The first profile of `ps` whose id is `id`, or `None` when there is
      none (`find` returning `undefined`). */
  function Find(ps: seq<Profile>, id: string): (r: Option<Profile>)
    ensures r.None? <==> !HasId(ps, id)
    ensures r.Some? ==> exists i :: IsFirstWithId(ps, id, i) && ps[i] == r.value
  {
    if |ps| == 0 then None
    else if ps[0].id == id then Some(ps[0])
    else
      var rest := Find(ps[1..], id);
      if rest.Some? then
        ghost var k :| IsFirstWithId(ps[1..], id, k) && ps[1..][k] == rest.value;
        assert IsFirstWithId(ps, id, k + 1);
        rest
      else
        assert forall i :: 1 <= i < |ps| ==> ps[i].id == ps[1..][i - 1].id;
        rest
  }

  /** Whatever `Find` returns is an element of the searched list and carries
      the requested id. */
  lemma FindResultIsMember(ps: seq<Profile>, id: string)
    ensures Find(ps, id).Some? ==> Find(ps, id).value in ps && Find(ps, id).value.id == id
  {
  }

  /** No two seed profiles share an id, so first-match lookup on the seed
      list is lookup by key. */
  lemma SeedIdsDistinct()
    ensures forall i, j :: 0 <= i < j < |SeedProfiles| ==> SeedProfiles[i].id != SeedProfiles[j].id
  {
  }

  /** With distinct ids, `Find` returns exactly the profile at any position
      that carries the id. */
  lemma FindSeedAt(i: int)
    requires 0 <= i < |SeedProfiles|
    ensures Find(SeedProfiles, SeedProfiles[i].id) == Some(SeedProfiles[i])
  {
    SeedIdsDistinct();
    var r := Find(SeedProfiles, SeedProfiles[i].id);
    var k :| IsFirstWithId(SeedProfiles, SeedProfiles[i].id, k) && SeedProfiles[k] == r.value;
  }

  /** The ids the seed list answers to are exactly "1", "2" and "3". */
  lemma SeedLookupDomain(id: string)
    ensures Find(SeedProfiles, id).Some? <==> id in {"1", "2", "3"}
  {
    if id in {"1", "2", "3"} {
      assert SeedProfiles[(if id == "1" then 0 else if id == "2" then 1 else 2)].id == id;
    }
  }
}
