/**
 * Row shapes of the four tables the pages use (the `Row` types of
 * src/integrations/supabase/types.ts). Identifiers are abstract `Id`s and
 * timestamps are an abstract ordered key: the value of the store's clock
 * when the row was written.
 */
module Rows {
  import opened Wrappers

  type Id = nat

  datatype Profile = Profile(
    id: Id,
    userId: Id,
    name: string,
    age: int,
    gender: string,
    seekingGender: string,
    location: Option<string>,
    bio: Option<string>,
    interests: Option<seq<string>>,
    pictureUrl: Option<string>,
    videoUrl: Option<string>,
    isAdmin: Option<bool>,
    isFake: Option<bool>,
    createdAt: nat)

  datatype Match = Match(id: Id, userId: Id, matchedProfileId: Id, createdAt: nat)

  datatype Message = Message(
    id: Id,
    matchId: Id,
    senderId: Id,
    content: string,
    createdAt: nat,
    isAdminReply: Option<bool>)

  datatype Credit = Credit(id: Id, userId: Id, balance: int, totalPurchased: Option<int>, createdAt: nat)

  /** The columns a client supplies when it inserts a profile (`Insert` shape, minus server defaults). */
  datatype NewProfile = NewProfile(
    userId: Id,
    name: string,
    age: int,
    gender: string,
    seekingGender: string,
    bio: string,
    location: string,
    interests: seq<string>,
    isFake: bool,
    pictureUrl: string)

  /**
   * The payload of the profile form's upsert: `user_id` plus the seven
   * editable columns. `age` is `None` when the form's text did not parse
   * (JavaScript `NaN`, which is sent as JSON `null`). There is no picture
   * column in it.
   */
  datatype ProfilePayload = ProfilePayload(
    userId: Id,
    name: string,
    age: Option<int>,
    gender: string,
    seekingGender: string,
    location: string,
    bio: string,
    interests: seq<string>)
}
