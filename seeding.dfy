/**
 * `createFakeProfiles` (src/utils/createFakeProfiles.ts): seed the
 * profiles table with five fixed profiles unless seed profiles are already
 * there.
 *
 * The seed rows are split in two: `SeedPeople` holds the columns the rules
 * depend on (name, age, genders, location, interests) and `SeedTexts` the
 * free-text columns (bio, picture URL). The proofs are stated for any five
 * texts, so the long literals never enter a proof.
 */
module Seeding {
  import opened Wrappers
  import opened Rows
  import opened Backend

  /** The rule-relevant columns of one seed profile. */
  datatype Person = Person(name: string, age: int, gender: string, seekingGender: string,
                           location: string, interests: seq<string>)

  /** The free-text columns of one seed profile. */
  datatype SeedText = SeedText(bio: string, pictureUrl: string)

  /** The five seed people, in insertion order. */
  function SeedPeople(): seq<Person> {
    [ Person("Emily Johnson", 25, "female", "male", "Nairobi, Kenya", ["Hiking", "Yoga", "Cooking", "Travel"]),
      Person("Sarah Wilson", 28, "female", "male", "Mombasa, Kenya", ["Photography", "Art", "Music", "Coffee"]),
      Person("Michael Chen", 30, "male", "female", "Kisumu, Kenya", ["Technology", "Travel", "Food", "Movies"]),
      Person("David Martinez", 27, "male", "female", "Nakuru, Kenya", ["Fitness", "Nature", "Reading", "Cycling"]),
      Person("Jessica Taylor", 26, "female", "male", "Eldoret, Kenya", ["Art", "Dancing", "Music", "Literature"]) ]
  }

  /** The five seed bios and picture URLs, in the same order as `SeedPeople`. */
  function SeedTexts(): seq<SeedText> {
    [ SeedText("Love hiking, yoga, and trying new cuisines. Looking for someone who shares my passion for adventure!",
               "https://images.unsplash.com/photo-1494790108755-2616b612b786?w=400&h=400&fit=crop&crop=face"),
      SeedText("Professional photographer with a love for art and music. Seeking meaningful connections and deep conversations.",
               "https://images.unsplash.com/photo-1438761681033-6461ffad8d80?w=400&h=400&fit=crop&crop=face"),
      SeedText("Tech entrepreneur who loves weekend getaways and good food. Always up for trying something new!",
               "https://images.unsplash.com/photo-1507003211169-0a1dd7228f2d?w=400&h=400&fit=crop&crop=face"),
      SeedText("Fitness enthusiast and nature lover. Looking for someone to share outdoor adventures and quiet moments.",
               "https://images.unsplash.com/photo-1500648767791-00dcc994a43e?w=400&h=400&fit=crop&crop=face"),
      SeedText("Artist and dancer with a passion for creativity. Seeking someone who appreciates the beauty in everyday life.",
               "https://images.unsplash.com/photo-1544005313-94ddf0286df2?w=400&h=400&fit=crop&crop=face") ]
  }

  /**
   * The five seed rows. `uuids` stands for the five `crypto.randomUUID()`
   * values used as their `user_id`s; `texts` is `SeedTexts()`.
   */
  function SeedProfiles(uuids: seq<Id>, texts: seq<SeedText>): (r: seq<NewProfile>)
    requires |uuids| == 5 && |texts| == 5
    ensures |r| == 5
    ensures forall i :: 0 <= i < 5 ==>
      && r[i].userId == uuids[i] && r[i].isFake
      && r[i].bio == texts[i].bio && r[i].pictureUrl == texts[i].pictureUrl
      && r[i].name == SeedPeople()[i].name && r[i].age == SeedPeople()[i].age
      && r[i].gender == SeedPeople()[i].gender && r[i].seekingGender == SeedPeople()[i].seekingGender
  {
    var people := SeedPeople();
    seq(5, i requires 0 <= i < 5 =>
      NewProfile(uuids[i], people[i].name, people[i].age, people[i].gender, people[i].seekingGender,
                 texts[i].bio, people[i].location, people[i].interests, true, texts[i].pictureUrl))
  }

  /** How many of five rows a filter keeps. */
  lemma FilterFive<T>(r: seq<T>, keep: T -> bool)
    requires |r| == 5
    ensures |Filter(r, keep)| == (if keep(r[0]) then 1 else 0) + (if keep(r[1]) then 1 else 0)
      + (if keep(r[2]) then 1 else 0) + (if keep(r[3]) then 1 else 0) + (if keep(r[4]) then 1 else 0)
  {
    assert |Filter(r, keep)| == (if keep(r[0]) then 1 else 0) + |Filter(r[1..], keep)|;
    assert r[1..][0] == r[1] && r[1..][1..] == r[2..];
    assert |Filter(r[1..], keep)| == (if keep(r[1]) then 1 else 0) + |Filter(r[2..], keep)|;
    assert r[2..][0] == r[2] && r[2..][1..] == r[3..];
    assert |Filter(r[2..], keep)| == (if keep(r[2]) then 1 else 0) + |Filter(r[3..], keep)|;
    assert r[3..][0] == r[3] && r[3..][1..] == r[4..];
    assert |Filter(r[3..], keep)| == (if keep(r[3]) then 1 else 0) + |Filter(r[4..], keep)|;
    assert r[4..][0] == r[4] && r[4..][1..] == [];
    assert |Filter(r[4..], keep)| == (if keep(r[4]) then 1 else 0) + |Filter([], keep)|;
  }

  /** A filter that every row passes keeps the whole sequence. */
  lemma {:induction false} FilterKeepsAll<T>(s: seq<T>, keep: T -> bool)
    requires forall i :: 0 <= i < |s| ==> keep(s[i])
    ensures Filter(s, keep) == s
  {
    if s != [] {
      FilterKeepsAll(s[1..], keep);
    }
  }

  /** Three women seeking men and two men seeking women, every one flagged as a seed. */
  lemma SeedComposition(uuids: seq<Id>, texts: seq<SeedText>)
    requires |uuids| == 5 && |texts| == 5
    ensures var r := SeedProfiles(uuids, texts);
      && |Filter(r, (p: NewProfile) => p.gender == "female" && p.seekingGender == "male")| == 3
      && |Filter(r, (p: NewProfile) => p.gender == "male" && p.seekingGender == "female")| == 2
      && Filter(r, (p: NewProfile) => p.isFake) == r
  {
    var r := SeedProfiles(uuids, texts);
    FilterFive(r, (p: NewProfile) => p.gender == "female" && p.seekingGender == "male");
    FilterFive(r, (p: NewProfile) => p.gender == "male" && p.seekingGender == "female");
    FilterKeepsAll(r, (p: NewProfile) => p.isFake);
  }

  /**
   * The profiles table after `createFakeProfiles`: untouched when the
   * existence check read seed profiles, the five seeds appended in one
   * insert otherwise (a failed check reads as "none"), and untouched when
   * that insert fails.
   */
  function Seeded(ps: seq<Profile>, rows: seq<NewProfile>, checkOk: bool, insertOk: bool, base: Id, now: nat)
    : seq<Profile>
  {
    if checkOk && FakeProfiles(ps) != [] then ps
    else if insertOk then ps + Materialize(rows, base, now)
    else ps
  }

  /** Seeding twice, the first insert succeeding, inserts nothing the second time. */
  lemma SeedingIsIdempotent(ps: seq<Profile>, uuids: seq<Id>, texts: seq<SeedText>, checkOk: bool, base: Id, now: nat,
                            rows': seq<NewProfile>, insertOk': bool, base': Id, now': nat)
    requires |uuids| == 5 && |texts| == 5
    ensures var once := Seeded(ps, SeedProfiles(uuids, texts), checkOk, true, base, now);
            Seeded(once, rows', true, insertOk', base', now') == once
  {
    var once := Seeded(ps, SeedProfiles(uuids, texts), checkOk, true, base, now);
    if !(checkOk && FakeProfiles(ps) != []) {
      var m := Materialize(SeedProfiles(uuids, texts), base, now);
      assert m[0] in once && m[0].isFake == Some(true);
    }
  }

  /** When the existence check itself fails, the seeds are inserted again even if present. */
  lemma FailedCheckReseeds(ps: seq<Profile>, uuids: seq<Id>, texts: seq<SeedText>, base: Id, now: nat)
    requires |uuids| == 5 && |texts| == 5
    ensures |FakeProfiles(Seeded(ps, SeedProfiles(uuids, texts), false, true, base, now))| == |FakeProfiles(ps)| + 5
  {
    var rows := Materialize(SeedProfiles(uuids, texts), base, now);
    var acc := ps;
    var i := 0;
    while i < 5
      invariant 0 <= i <= 5 && acc == ps + rows[..i]
      invariant |FakeProfiles(acc)| == |FakeProfiles(ps)| + i
    {
      FilterAppend(acc, rows[i], (p: Profile) => p.isFake == Some(true));
      assert acc + [rows[i]] == ps + rows[..i + 1];
      acc := acc + [rows[i]];
      i := i + 1;
    }
    assert rows[..5] == rows;
  }

  /**
   * `createFakeProfiles`. `uuids` are the generated user ids, `texts` the
   * seed texts (`SeedTexts()`); `checkOk` and `insertOk` are the outcomes of
   * the existence check and of the insert. Errors are swallowed: the method
   * always returns normally.
   */
  method CreateFakeProfiles(store: Store, uuids: seq<Id>, texts: seq<SeedText>, checkOk: bool, insertOk: bool)
    requires store.Valid() && |uuids| == 5 && |texts| == 5
    modifies store
    ensures store.Valid()
    ensures store.tables == old(store.tables).(profiles :=
      Seeded(old(store.tables.profiles), SeedProfiles(uuids, texts), checkOk, insertOk, old(store.nextId), old(store.clock)))
    ensures !(checkOk && FakeProfiles(old(store.tables.profiles)) != []) && insertOk
      ==> store.nextId == old(store.nextId) + 5 && store.clock == old(store.clock) + 1
    ensures !(!(checkOk && FakeProfiles(old(store.tables.profiles)) != []) && insertOk)
      ==> store.nextId == old(store.nextId) && store.clock == old(store.clock)
  {
    if checkOk && FakeProfiles(store.tables.profiles) != [] {
      return;
    }
    store.InsertProfiles(SeedProfiles(uuids, texts), insertOk);
  }
}
