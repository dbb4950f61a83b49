/**
 * The profile screen (`ProfileViewController`): six form fields, the bio
 * view's placeholder, the age and gender pickers, and the `users` record
 * the form is loaded from and saved to.
 */
module Profile {
  import opened Wrappers
  import opened Store
  import opened Text
  import opened Chat

  // ---------------------------------------------------------------- pickers

  /** `Array(lo...hi).map { "\($0)" }`: each number of the closed range, in decimal, ascending. */
  function DecimalRange(lo: nat, hi: nat): (r: seq<string>)
    ensures |r| == if lo <= hi then hi - lo + 1 else 0
    ensures forall i :: 0 <= i < |r| ==> r[i] == NatToDecimal(lo + i)
    decreases hi + 1 - lo
  {
    if lo > hi then [] else [NatToDecimal(lo)] + DecimalRange(lo + 1, hi)
  }

  const AgeOptions: seq<string> := DecimalRange(13, 99)
  const GenderOptions: seq<string> := ["Male", "Female", "Other"]

  /** The ages offered run from "13" to "99", one per year, in ascending numeric order. */
  lemma AgeOptionsAscending()
    ensures |AgeOptions| == 87 && AgeOptions[0] == "13" && AgeOptions[86] == "99"
    ensures forall i :: 0 <= i < |AgeOptions| ==> ParseDecimal(AgeOptions[i]) == 13 + i
    ensures forall i, j :: 0 <= i < j < |AgeOptions| ==> ParseDecimal(AgeOptions[i]) < ParseDecimal(AgeOptions[j])
  {
    assert NatToDecimal(1) == "1" && NatToDecimal(9) == "9";
    forall i | 0 <= i < |AgeOptions| ensures ParseDecimal(AgeOptions[i]) == 13 + i {
      ParseDecimalOfNatToDecimal(13 + i);
    }
  }

  datatype Picker = AgePicker | GenderPicker | OtherPicker

  /** The table a picker shows (none for an unknown picker). */
  function Options(p: Picker): (opts: seq<string>)
    ensures p.OtherPicker? <==> opts == []
  {
    match p
    case AgePicker => AgeOptions
    case GenderPicker => GenderOptions
    case OtherPicker => []
  }

  /** `numberOfRowsInComponent`: the picker's option count, 0 for an unknown picker. */
  function NumberOfRows(p: Picker): (n: nat)
    ensures n == |Options(p)|
    ensures p.AgePicker? ==> n == 87
    ensures p.GenderPicker? ==> n == 3
    ensures p.OtherPicker? ==> n == 0
  {
    match p
    case AgePicker => |AgeOptions|
    case GenderPicker => |GenderOptions|
    case OtherPicker => 0
  }

  /** `titleForRow`: option `row` of a known picker; nil for an unknown one. */
  function TitleForRow(p: Picker, row: nat): (title: Option<string>)
    requires p.OtherPicker? || row < NumberOfRows(p)
    ensures title.None? <==> p.OtherPicker?
    ensures title.Some? ==> title.value == Options(p)[row]
  {
    match p
    case AgePicker => Some(AgeOptions[row])
    case GenderPicker => Some(GenderOptions[row])
    case OtherPicker => None
  }

  // ------------------------------------------------------------ form state

  const BioPlaceholder: string := "Bio"

  /**
   * What the screen shows: the text of each field (`UITextField.text` is
   * optional) and the bio view's text, with `bioPlaceholder` standing for its
   * dimmed placeholder colour.
   */
  datatype ProfileForm = ProfileForm(name: Option<string>, age: Option<string>, gender: Option<string>,
                                     occupation: Option<string>, location: Option<string>,
                                     bioText: string, bioPlaceholder: bool)

  /** The placeholder colour is only ever shown with the placeholder text. */
  predicate BioConsistent(f: ProfileForm) {
    f.bioPlaceholder ==> f.bioText == BioPlaceholder
  }

  /** `textViewDidBeginEditing`: the placeholder gives way to an empty, real text. */
  function BeginEditing(f: ProfileForm): (g: ProfileForm)
    ensures f.bioPlaceholder ==> g.bioText == "" && !g.bioPlaceholder
    ensures !f.bioPlaceholder ==> g == f
    ensures g.(bioText := f.bioText, bioPlaceholder := f.bioPlaceholder) == f
  {
    if f.bioPlaceholder then f.(bioText := "", bioPlaceholder := false) else f
  }

  /** `textViewDidEndEditing`: an empty bio shows the placeholder again. */
  function EndEditing(f: ProfileForm): (g: ProfileForm)
    ensures f.bioText == [] ==> g.bioText == BioPlaceholder && g.bioPlaceholder
    ensures f.bioText != [] ==> g == f
    ensures g.(bioText := f.bioText, bioPlaceholder := f.bioPlaceholder) == f
  {
    if f.bioText == [] then f.(bioText := BioPlaceholder, bioPlaceholder := true) else f
  }

  /** Typing in the bio view: its text changes, its colour does not. */
  function TypeBio(f: ProfileForm, text: string): (g: ProfileForm)
    ensures g.bioText == text && g.(bioText := f.bioText) == f
  {
    f.(bioText := text)
  }

  /** `didSelectRow`: option `row` is written into the picker's field; an unknown picker writes nothing. */
  function Selected(f: ProfileForm, p: Picker, row: nat): (g: ProfileForm)
    requires p.OtherPicker? || row < NumberOfRows(p)
    ensures p.AgePicker? ==> g == f.(age := TitleForRow(p, row))
    ensures p.GenderPicker? ==> g == f.(gender := TitleForRow(p, row))
    ensures p.OtherPicker? ==> g == f
  {
    match p
    case AgePicker => f.(age := Some(AgeOptions[row]))
    case GenderPicker => f.(gender := Some(GenderOptions[row]))
    case OtherPicker => f
  }

  /**
   * The load completion's field mapping: each field shows the record's
   * string (or nothing), and the bio shows a non-empty stored bio as real
   * text and anything else as the placeholder.
   */
  function Loaded(data: Record): (g: ProfileForm)
    ensures g.name == CastString(data, "name") && g.age == CastString(data, "age")
    ensures g.gender == CastString(data, "gender") && g.occupation == CastString(data, "occupation")
    ensures g.location == CastString(data, "location")
    ensures g.bioPlaceholder <==> StringOr(data, "bio") == ""
    ensures !g.bioPlaceholder ==> g.bioText == StringOr(data, "bio")
    ensures BioConsistent(g)
  {
    ProfileForm(CastString(data, "name"), CastString(data, "age"), CastString(data, "gender"),
                CastString(data, "occupation"), CastString(data, "location"),
                if StringOr(data, "bio") != "" then StringOr(data, "bio") else BioPlaceholder,
                StringOr(data, "bio") == "")
  }

  /** The bio that is saved: nothing for the placeholder (told apart by colour, not text), else the text. */
  function SavedBio(f: ProfileForm): (bio: string)
    ensures f.bioPlaceholder ==> bio == ""
    ensures !f.bioPlaceholder ==> bio == f.bioText
  {
    if f.bioPlaceholder then "" else f.bioText
  }

  /** The six form fields' keys in a `users` record. */
  const ProfileFieldKeys: set<string> := {"name", "age", "gender", "occupation", "location", "bio"}
  const ProfileKeys: set<string> := ProfileFieldKeys + {"timestamp"}

  /** `saveProfile`'s `userData`: every field's text, nil as "", and a server timestamp. */
  function UserData(f: ProfileForm): (r: Record)
    ensures r.Keys == ProfileKeys
    ensures r["name"] == Str(f.name.GetOr("")) && r["age"] == Str(f.age.GetOr(""))
    ensures r["gender"] == Str(f.gender.GetOr("")) && r["occupation"] == Str(f.occupation.GetOr(""))
    ensures r["location"] == Str(f.location.GetOr("")) && r["bio"] == Str(SavedBio(f))
    ensures r["timestamp"] == ServerTimestamp
  {
    map["name" := Str(f.name.GetOr("")), "age" := Str(f.age.GetOr("")),
        "gender" := Str(f.gender.GetOr("")), "occupation" := Str(f.occupation.GetOr("")),
        "location" := Str(f.location.GetOr("")), "bio" := Str(SavedBio(f)),
        "timestamp" := ServerTimestamp]
  }

  // --------------------------------------------------------------- lemmas

  /** Every step the screen takes keeps the placeholder colour with the placeholder text. */
  lemma StepsKeepBioConsistent(f: ProfileForm, p: Picker, row: nat)
    requires BioConsistent(f)
    requires p.OtherPicker? || row < NumberOfRows(p)
    ensures BioConsistent(BeginEditing(f)) && BioConsistent(EndEditing(f))
    ensures BioConsistent(Selected(f, p, row))
    ensures forall t :: !f.bioPlaceholder ==> BioConsistent(TypeBio(f, t))
  {
  }

  /**
   * Whatever was shown before, a bio typed in one editing session is saved
   * exactly as typed: an emptied bio as "", and the word "Bio" as "Bio".
   */
  lemma EditedBioIsSaved(f: ProfileForm, text: string)
    ensures SavedBio(EndEditing(TypeBio(BeginEditing(f), text))) == text
  {
    var g := TypeBio(BeginEditing(f), text);
    assert !g.bioPlaceholder;
  }

  /**
   * Load followed by save with no edits writes back every stored string
   * field, with a missing or non-string field saved as "".
   */
  lemma LoadThenSave(data: Record)
    ensures forall k :: k in ProfileFieldKeys ==> UserData(Loaded(data))[k] == Str(StringOr(data, k))
  {
    var g := Loaded(data);
    if g.bioPlaceholder {
      assert SavedBio(g) == "" == StringOr(data, "bio");
    }
  }

  /**
   * The chat's view of the user is unchanged by a load and save with no
   * edits, once the store has merged the write into the old record.
   */
  lemma LoadSaveKeepsChatProfile(data: Record, stored: Record, now: Instant)
    ensures ProfileFromRecord(stored + ResolveServerTimestamps(UserData(Loaded(data)), now)) == ProfileFromRecord(data)
  {
    var written := ResolveServerTimestamps(UserData(Loaded(data)), now);
    var merged := stored + written;
    LoadThenSave(data);
    forall k | k in ProfileFieldKeys
      ensures StringOr(merged, k) == StringOr(data, k)
    {
      assert merged[k] == written[k] == UserData(Loaded(data))[k];
    }
  }

  // ---------------------------------------------------------------- screen

  /** A merged write to `users/<docId>`. */
  datatype ProfileWrite = ProfileWrite(docId: string, data: Record, merge: bool)

  /** How the profile read ends: an error, or a document that may have no data. */
  datatype LoadResult = LoadFailed(description: string) | Fetched(data: Option<Record>)

  /** The save alert's title and message. */
  function SaveAlert(error: Option<string>): (alert: (string, string))
    ensures error.Some? <==> alert.0 == "Error"
    ensures error.None? <==> alert.0 == "Saved"
    ensures alert.1 == if error.Some? then "Failed to save profile." else "Your profile has been updated successfully."
  {
    if error.Some? then ("Error", "Failed to save profile.")
    else ("Saved", "Your profile has been updated successfully.")
  }

  class ProfileScreen {
    var name: Option<string>
    var age: Option<string>
    var gender: Option<string>
    var occupation: Option<string>
    var location: Option<string>
    var bioText: string
    var bioPlaceholder: bool

    function Form(): ProfileForm
      reads this
    {
      ProfileForm(name, age, gender, occupation, location, bioText, bioPlaceholder)
    }

    /** Empty fields and the bio placeholder. */
    constructor ()
      ensures Form() == ProfileForm(Some(""), Some(""), Some(""), Some(""), Some(""), BioPlaceholder, true)
      ensures BioConsistent(Form())
    {
      name, age, gender, occupation, location := Some(""), Some(""), Some(""), Some(""), Some("");
      bioText, bioPlaceholder := BioPlaceholder, true;
    }

    method BeginEditingBio()
      modifies this`bioText, this`bioPlaceholder
      ensures Form() == BeginEditing(old(Form()))
    {
      if bioPlaceholder {
        bioText := "";
        bioPlaceholder := false;
      }
    }

    method EndEditingBio()
      modifies this`bioText, this`bioPlaceholder
      ensures Form() == EndEditing(old(Form()))
    {
      if bioText == [] {
        bioText := BioPlaceholder;
        bioPlaceholder := true;
      }
    }

    method TypeInBio(text: string)
      modifies this`bioText
      ensures Form() == TypeBio(old(Form()), text)
    {
      bioText := text;
    }

    method SelectPickerRow(p: Picker, row: nat)
      requires p.OtherPicker? || row < NumberOfRows(p)
      modifies this`age, this`gender
      ensures Form() == Selected(old(Form()), p, row)
    {
      match p {
        case AgePicker => age := Some(AgeOptions[row]);
        case GenderPicker => gender := Some(GenderOptions[row]);
        case OtherPicker =>
      }
    }

    /**
     * `loadUserProfile`, with `read` standing for the store: without a user
     * nothing is read and the form stays; otherwise the completion takes the
     * answer for that user's own document.
     */
    method LoadUserProfile(uid: Option<string>, read: string -> LoadResult)
      modifies this
      ensures uid.None? ==> Form() == old(Form())
      ensures uid.Some? ==> var result := read(uid.value);
        && (result.LoadFailed? || result.data.None? ==> Form() == old(Form()))
        && (result.Fetched? && result.data.Some? ==> Form() == Loaded(result.data.value))
    {
      if uid.Some? {
        CompleteLoad(read(uid.value));
      }
    }

    /** The read's completion: an error or a document without data leaves the form as it was. */
    method CompleteLoad(result: LoadResult)
      modifies this
      ensures result.LoadFailed? || result.data.None? ==> Form() == old(Form())
      ensures result.Fetched? && result.data.Some? ==> Form() == Loaded(result.data.value)
    {
      if result.Fetched? && result.data.Some? {
        var data := result.data.value;
        name := CastString(data, "name");
        age := CastString(data, "age");
        gender := CastString(data, "gender");
        occupation := CastString(data, "occupation");
        location := CastString(data, "location");
        var bio := CastString(data, "bio");
        if bio.Some? && bio.value != [] {
          bioText, bioPlaceholder := bio.value, false;
        } else {
          bioText, bioPlaceholder := BioPlaceholder, true;
        }
      }
    }

    /** `saveProfile`: a merged write of the form to the user's record, none without a user. */
    method SaveProfile(uid: Option<string>) returns (request: Option<ProfileWrite>)
      ensures request.None? <==> uid.None?
      ensures uid.Some? ==> request == Some(ProfileWrite(uid.value, UserData(Form()), true))
    {
      if uid.None? {
        return None;
      }
      request := Some(ProfileWrite(uid.value, UserData(Form()), true));
    }
  }
}
