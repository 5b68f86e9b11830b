/**
 * The profile form (src/pages/Profile.tsx): load the user's row into the
 * form, save the form back with an upsert keyed on `user_id`.
 */
module ProfilePage {
  import opened Wrappers
  import opened Rows
  import opened Text
  import opened Backend

  /** The form's state: every field is text except the interests. */
  datatype Form = Form(name: string, age: string, gender: string, seekingGender: string,
                       location: string, bio: string, interests: seq<string>, pictureUrl: string)

  const EmptyForm: Form := Form("", "", "", "", "", "", [], "")

  /** `fetchProfile`'s mapping of a row onto the form: `null` becomes `''` or `[]`, the age becomes text. */
  function FormOf(p: Profile): (f: Form)
    ensures f.location == p.location.GetOr("") && f.bio == p.bio.GetOr("")
    ensures f.interests == p.interests.GetOr([]) && f.pictureUrl == p.pictureUrl.GetOr("")
    ensures ParseInt(f.age) == Some(p.age)
  {
    ParseShowRoundTrip(p.age);
    Form(p.name, ShowInt(p.age), p.gender, p.seekingGender, p.location.GetOr(""), p.bio.GetOr(""),
         p.interests.GetOr([]), p.pictureUrl.GetOr(""))
  }

  /** `handleSave`'s payload: the seven editable fields and `user_id`; no picture. */
  function PayloadOf(uid: Id, f: Form): (pl: ProfilePayload)
    ensures pl.userId == uid && pl.age == ParseInt(f.age)
  {
    ProfilePayload(uid, f.name, ParseInt(f.age), f.gender, f.seekingGender, f.location, f.bio, f.interests)
  }

  /** The picture the user's row already has, as the form shows it. */
  function StoredPicture(ps: seq<Profile>, uid: Id): string {
    if ProfilesOf(ps, uid) == [] then "" else ProfilesOf(ps, uid)[0].pictureUrl.GetOr("")
  }

  /**
   * Save, then load: the form comes back as it was saved, except the
   * picture, which the save never writes and the load shows as stored.
   * This needs the age to be written the way `toString` writes numbers and
   * the user to have at most one profile row.
   */
  lemma SaveThenLoad(ps: seq<Profile>, uid: Id, f: Form, n: int, id: Id, now: nat)
    requires f.age == ShowInt(n)
    requires |ProfilesOf(ps, uid)| <= 1
    ensures var saved := UpsertedProfiles(ps, PayloadOf(uid, f), n, id, now);
      && SingleOf(ProfilesOf(saved, uid), true).Found?
      && FormOf(SingleOf(ProfilesOf(saved, uid), true).row) == f.(pictureUrl := StoredPicture(ps, uid))
  {
    ParseShowRoundTrip(n);
    UpsertOwnRow(ps, PayloadOf(uid, f), n, id, now);
  }

  class Page {
    const user: Option<Id>
    var form: Form
    var loading: bool
    var credits: int

    constructor (user: Option<Id>)
      ensures this.user == user && form == EmptyForm && !loading && credits == 0
    {
      this.user := user;
      form, loading, credits := EmptyForm, false, 0;
    }

    /**
     * `fetchProfile`: a single row replaces the form. "No row" (PGRST116)
     * is not reported as an error, but it brings no data either, so it
     * and every other error leave the form as it was.
     */
    method FetchProfile(store: Store, reachable: bool)
      requires user.Some?
      modifies this`form
      ensures form == match SingleOf(ProfilesOf(store.tables.profiles, user.value), reachable)
                      case Found(p) => FormOf(p)
                      case Error(_) => old(form)
    {
      var r := SingleOf(ProfilesOf(store.tables.profiles, user.value), reachable);
      if r.Found? {
        form := FormOf(r.row);
      }
    }

    /** `fetchCredits`: a returned row replaces the count; anything else keeps it. */
    method FetchCredits(store: Store, reachable: bool)
      requires user.Some?
      modifies this`credits
      ensures credits == match ReadBalance(store.tables.credits, user.value, reachable)
                         case Found(b) => b
                         case Error(_) => old(credits)
    {
      var r := ReadBalance(store.tables.credits, user.value, reachable);
      if r.Found? {
        credits := r.row;
      }
    }

    method Edit(f: Form)
      modifies this`form
      ensures form == f
    {
      form := f;
    }

    /**
     * `handleSave`: without a user nothing happens; otherwise upsert the
     * payload keyed on `user_id` (an unparsable age makes the write fail)
     * and clear `loading` whatever the outcome.
     */
    method HandleSave(store: Store, ok: bool) returns (saved: bool)
      requires store.Valid()
      modifies this`loading, store
      ensures store.Valid()
      ensures user.None? ==> !saved && loading == old(loading) && store.tables == old(store.tables)
      ensures user.Some? ==> !loading
      ensures user.Some? ==> (saved <==> ok && ParseInt(form.age).Some?)
      ensures saved ==> store.tables == old(store.tables).(profiles :=
        UpsertedProfiles(old(store.tables.profiles), PayloadOf(user.value, form), ParseInt(form.age).value,
                         old(store.nextId), old(store.clock)))
      ensures !saved ==> store.tables == old(store.tables)
      ensures saved ==> store.nextId == old(store.nextId) + 1 && store.clock == old(store.clock) + 1
      ensures !saved ==> store.nextId == old(store.nextId) && store.clock == old(store.clock)
    {
      if user.None? {
        return false;
      }
      loading := true;
      saved := store.UpsertProfile(PayloadOf(user.value, form), ok);
      loading := false;
    }
  }
}
