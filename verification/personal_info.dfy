/**
 * The personal information screen: the profile form, filled from the
 * profile the server returns and sent back on save when the required
 * fields are filled. Each request is split at its `await`: a `Begin` method
 * for what happens before it and a `Finish` method, given the reply, for
 * what happens after.
 */
module PersonalInfo {
  import opened Wrappers
  import opened JsString

  /** The profile as the server returns it; `None` stands for a null or missing field. */
  datatype ProfileData = ProfileData(
    name: Option<string>, email: Option<string>, mobile: Option<string>,
    address: Option<string>, city: Option<string>, pin: Option<string>,
    dob: Option<string>, gender: Option<string>, anniversary: Option<string>)

  /** The reply of `getUserProfile`. */
  datatype LoadResult = LoadResult(success: bool, data: Option<ProfileData>, error: Option<string>)

  /** The reply of `updateProfile`. */
  datatype SaveResult = SaveResult(success: bool, error: Option<string>)

  /** The text of the nine inputs. */
  datatype ProfileFields = ProfileFields(
    name: string, email: string, mobile: string, address: string, city: string,
    pin: string, dob: string, gender: string, anniversary: string)

  /** The body of the update request; an absent anniversary is left out (`undefined`). */
  datatype ProfileUpdate = ProfileUpdate(
    name: string, email: string, mobile: string, address: string, city: string,
    pin: string, dob: string, gender: string, anniversary: Option<string>)

  const LoadFailed := "Failed to load profile"
  const SaveFailed := "Failed to update profile"

  /** `fetchProfile`'s assignments: every field, or '' when it is null, missing or empty. */
  function Normalise(d: ProfileData): ProfileFields
  {
    ProfileFields(OrElse(d.name, ""), OrElse(d.email, ""), OrElse(d.mobile, ""),
                  OrElse(d.address, ""), OrElse(d.city, ""), OrElse(d.pin, ""),
                  OrElse(d.dob, ""), OrElse(d.gender, ""), OrElse(d.anniversary, ""))
  }

  /** `handleSave`'s guard: name, email, mobile, date of birth and gender are filled. */
  predicate RequiredFilled(f: ProfileFields)
  {
    f.name != "" && f.email != "" && f.mobile != "" && f.dob != "" && f.gender != ""
  }

  /** Address, city, pin and anniversary play no part in the guard. */
  lemma OptionalFieldsNotRequired(f: ProfileFields, address: string, city: string, pin: string, anniversary: string)
    ensures RequiredFilled(f.(address := address, city := city, pin := pin, anniversary := anniversary))
            == RequiredFilled(f)
  {
  }

  /** The update request: every field as typed, except an empty anniversary, which is left out. */
  function UpdateOf(f: ProfileFields): (u: ProfileUpdate)
    ensures u.anniversary.None? <==> f.anniversary == ""
  {
    ProfileUpdate(f.name, f.email, f.mobile, f.address, f.city, f.pin, f.dob, f.gender,
                  if f.anniversary == "" then None else Some(f.anniversary))
  }

  /** A profile holding exactly what an update request sent. */
  function Stored(u: ProfileUpdate): ProfileData
  {
    ProfileData(Some(u.name), Some(u.email), Some(u.mobile), Some(u.address), Some(u.city),
                Some(u.pin), Some(u.dob), Some(u.gender), u.anniversary)
  }

  /**
   * Saving loses nothing: a profile that holds what was sent loads back into
   * exactly the fields that were saved.
   */
  lemma SaveThenLoad(f: ProfileFields)
    ensures Normalise(Stored(UpdateOf(f))) == f
  {
  }

  /**
   * After a failed request the screen always shows some text: the reply's
   * error, or the fixed message when the reply carries none.
   */
  lemma FailureTextNeverEmpty(error: Option<string>)
    ensures OrElse(error, LoadFailed) != "" && OrElse(error, SaveFailed) != ""
    ensures error.None? || error == Some("") ==>
      OrElse(error, LoadFailed) == "Failed to load profile" && OrElse(error, SaveFailed) == "Failed to update profile"
    ensures error.Some? && error.value != "" ==> OrElse(error, LoadFailed) == OrElse(error, SaveFailed) == error.value
  {
  }

  /** The screen's state: the nine inputs and the loading, saving and error indicators. */
  class PersonalInfoScreen {
    var name: string
    var email: string
    var mobile: string
    var address: string
    var city: string
    var pin: string
    var dob: string
    var gender: string
    var anniversary: string
    var loading: bool
    var saving: bool
    var error: string

    function Fields(): ProfileFields
      reads this
    {
      ProfileFields(name, email, mobile, address, city, pin, dob, gender, anniversary)
    }

    constructor ()
      ensures Fields() == ProfileFields("", "", "", "", "", "", "", "", "")
      ensures loading && !saving && error == ""
    {
      name, email, mobile, address, city := "", "", "", "", "";
      pin, dob, gender, anniversary := "", "", "", "";
      loading, saving, error := true, false, "";
    }

    /** `fetchProfile` up to the request: loading, with no error shown. */
    method BeginLoad()
      modifies this
      ensures loading && error == ""
      ensures Fields() == old(Fields()) && saving == old(saving)
    {
      loading := true;
      error := "";
    }

    /**
     * `fetchProfile` after the reply: on success every input takes the
     * returned value or ''; otherwise the inputs stay and the error is shown.
     */
    method FinishLoad(result: LoadResult)
      modifies this
      ensures !loading && saving == old(saving)
      ensures result.success && result.data.Some? ==>
        Fields() == Normalise(result.data.value) && error == old(error)
      ensures !(result.success && result.data.Some?) ==>
        Fields() == old(Fields()) && error == OrElse(result.error, LoadFailed)
    {
      loading := false;
      if result.success && result.data.Some? {
        var n := Normalise(result.data.value);
        name, email, mobile := n.name, n.email, n.mobile;
        address, city, pin := n.address, n.city, n.pin;
        dob, gender, anniversary := n.dob, n.gender, n.anniversary;
      } else {
        error := OrElse(result.error, LoadFailed);
      }
    }

    /**
     * `handleSave` up to the request: with a required field empty nothing
     * is sent and nothing changes; otherwise the screen is saving, the error
     * is cleared and the request is returned.
     */
    method BeginSave() returns (request: Option<ProfileUpdate>)
      modifies this
      ensures request.Some? <==> RequiredFilled(old(Fields()))
      ensures request.Some? ==> request.value == UpdateOf(Fields())
      ensures Fields() == old(Fields()) && loading == old(loading)
      ensures request.None? ==> saving == old(saving) && error == old(error)
      ensures request.Some? ==> saving && error == ""
    {
      if !RequiredFilled(Fields()) {
        return None;
      }
      saving := true;
      error := "";
      request := Some(UpdateOf(Fields()));
    }

    /** `handleSave` after the reply: no longer saving; a failure shows its error. */
    method FinishSave(result: SaveResult)
      modifies this
      ensures !saving
      ensures Fields() == old(Fields()) && loading == old(loading)
      ensures error == if result.success then old(error) else OrElse(result.error, SaveFailed)
    {
      saving := false;
      if !result.success {
        error := OrElse(result.error, SaveFailed);
      }
    }
  }
}
