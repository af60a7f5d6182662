/**
 * The profile page (client/src/components/Profile.jsx): the skills box that turns
 * comma-separated text into a list, the edited copy of the profile kept by the
 * main panel and by the sidebar, and the page's edit mode, which a successful
 * update switches off.
 */
module ProfileScreen {
  import opened Wrappers
  import opened Text
  import opened Seqs

  /** A value of a profile field as the page holds it: text, a flag, a list (skills, and the
      education and experience entries, each kept here as a string) or `null`. */
  datatype PValue = Text(s: string) | Flag(b: bool) | Items(xs: seq<string>) | Null

  /** A profile object: field name to value; an absent key is `undefined`. */
  type Doc = map<string, PValue>

  /** JavaScript truthiness of a field value; every array, even an empty one, is truthy. */
  predicate IsTruthy(v: PValue) {
    match v
    case Text(s) => s != ""
    case Flag(b) => b
    case Items(_) => true
    case Null => false
  }

  /** `doc?.[key] || fallback`. */
  function FieldOr(doc: Option<Doc>, key: string, fallback: PValue): PValue {
    if doc.Some? && key in doc.value && IsTruthy(doc.value[key]) then doc.value[key] else fallback
  }

  // ---------------------------------------------------------------- skills

  /** What one entry of the skills list looks like after parsing: not empty, no white space
      at either end and no comma. */
  predicate IsSkill(s: string) {
    s != [] && !IsSpace(s[0]) && !IsSpace(s[|s| - 1]) && ',' !in s
  }

  /** The comma-separated pieces of `input`, each trimmed. */
  function Pieces(input: string): (r: seq<string>)
    ensures |r| == |Split(input, ',')|
    ensures forall i :: 0 <= i < |r| ==> r[i] == Trim(Split(input, ',')[i]) && ',' !in r[i]
  {
    var parts := Split(input, ',');
    forall i | 0 <= i < |parts| ensures ',' !in Trim(parts[i]) {
      TrimWithin(parts[i], ',');
    }
    seq(|parts|, i requires 0 <= i < |parts| => Trim(parts[i]))
  }

  /** A non-empty piece has no white space at either end and no comma. */
  lemma PieceShape(input: string, k: nat)
    requires k < |Pieces(input)| && Pieces(input)[k] != ""
    ensures IsSkill(Pieces(input)[k])
  {
    var t := Trim(Split(input, ',')[k]);
    assert Pieces(input)[k] == t;
  }

  /** `handleSkillsChange`: split the text on commas, trim each piece, drop the empty ones. */
  function ParseSkills(input: string): (r: seq<string>)
    ensures forall i :: 0 <= i < |r| ==> IsSkill(r[i])
    ensures |r| <= |Split(input, ',')|
    ensures forall x :: x in r <==> x != "" && x in Pieces(input)
    ensures IsSubsequence(r, Pieces(input))
    ensures multiset(r) == multiset(Pieces(input))["" := 0]
  {
    var pieces := Pieces(input);
    var r := Filter(pieces, (s: string) => s != "");
    forall i | 0 <= i < |r| ensures IsSkill(r[i]) {
      assert r[i] in pieces;
      var k :| 0 <= k < |pieces| && pieces[k] == r[i];
      PieceShape(input, k);
    }
    FilterLength(pieces, (s: string) => s != "");
    DropEmptyMultiset(pieces);
    r
  }

  /** Dropping the empty pieces keeps every other piece as often as it occurs. */
  lemma DropEmptyMultiset(pieces: seq<string>)
    ensures multiset(Filter(pieces, (s: string) => s != "")) == multiset(pieces)["" := 0]
  {
    var r := Filter(pieces, (s: string) => s != "");
    forall x ensures multiset(r)[x] == multiset(pieces)["" := 0][x] {
      FilterMultiset(pieces, (s: string) => s != "", x);
    }
  }

  /** A filter keeps at most as many elements as it is given. */
  lemma {:induction false} FilterLength<T(!new)>(s: seq<T>, p: T -> bool)
    ensures |Filter(s, p)| <= |s|
  {
    if s != [] {
      FilterLength(s[1..], p);
    }
  }

  /** Each entry with a space in front. */
  function Spaced(xs: seq<string>): (r: seq<string>)
    ensures |r| == |xs|
    ensures forall i :: 0 <= i < |xs| ==> r[i] == " " + xs[i]
  {
    if xs == [] then [] else [" " + xs[0]] + Spaced(xs[1..])
  }

  /** `xs.join(', ')` is the first entry followed by the others, each with a space in front,
      joined by plain commas. */
  lemma {:induction false} JoinCommaSpace(xs: seq<string>)
    requires xs != []
    ensures Join(xs, ", ") == Join([xs[0]] + Spaced(xs[1..]), ",")
  {
    if |xs| > 1 {
      LeadingSpace(xs[1..]);
      var ys := [xs[0]] + Spaced(xs[1..]);
      assert ys[1..] == Spaced(xs[1..]);
    }
  }

  lemma {:induction false} LeadingSpace(ys: seq<string>)
    requires ys != []
    ensures " " + Join(ys, ", ") == Join(Spaced(ys), ",")
  {
    var sp := Spaced(ys);
    if |ys| > 1 {
      LeadingSpace(ys[1..]);
      assert sp[1..] == Spaced(ys[1..]);
      assert Join(ys, ", ") == ys[0] + ", " + Join(ys[1..], ", ");
      assert Join(sp, ",") == sp[0] + "," + Join(sp[1..], ",");
    }
  }

  /** The skills box shows the list joined with ", "; reading that text back gives the same
      list, so editing other fields never disturbs the skills. */
  lemma {:induction false} SkillsRoundTrip(xs: seq<string>)
    requires forall i :: 0 <= i < |xs| ==> IsSkill(xs[i])
    ensures ParseSkills(Join(xs, ", ")) == xs
  {
    if xs == [] {
      var ps := Pieces("");
      assert Split("", ',') == [""];
      assert Trim("") == "";
      assert ps == [""];
      assert Filter(ps, (s: string) => s != "") == [];
    } else {
      PiecesOfShown(xs);
      FilterAll(xs, (s: string) => s != "");
    }
  }

  /** The trimmed pieces of the shown text of a non-empty list are the skills themselves. */
  lemma PiecesOfShown(xs: seq<string>)
    requires xs != [] && forall i :: 0 <= i < |xs| ==> IsSkill(xs[i])
    ensures Pieces(Join(xs, ", ")) == xs
  {
    SplitShown(xs);
    PiecesOfSplit(Join(xs, ", "), xs);
  }

  lemma PiecesOfSplit(text: string, xs: seq<string>)
    requires xs != [] && forall i :: 0 <= i < |xs| ==> IsSkill(xs[i])
    requires Split(text, ',') == [xs[0]] + Spaced(xs[1..])
    ensures Pieces(text) == xs
  {
    var ps := Pieces(text);
    forall i | 0 <= i < |xs| ensures ps[i] == xs[i] {
      TrimShownPiece(xs, i);
    }
  }

  /** Trimming a piece of the shown text gives the skill back. */
  lemma TrimShownPiece(xs: seq<string>, i: nat)
    requires xs != [] && i < |xs| && IsSkill(xs[i])
    ensures var ys := [xs[0]] + Spaced(xs[1..]); Trim(ys[i]) == xs[i]
  {
    if i == 0 {
      TrimTrimmed(xs[0]);
    } else {
      assert ([xs[0]] + Spaced(xs[1..]))[i] == " " + xs[i];
      TrimLeadingSpace(xs[i]);
    }
  }

  /** Splitting the shown text on commas gives the skills, all but the first with the space
      the join put in front. */
  lemma SplitShown(xs: seq<string>)
    requires xs != [] && forall i :: 0 <= i < |xs| ==> IsSkill(xs[i])
    ensures Split(Join(xs, ", "), ',') == [xs[0]] + Spaced(xs[1..])
  {
    JoinCommaSpace(xs);
    ShownPiecesCommaFree(xs);
    SplitJoin([xs[0]] + Spaced(xs[1..]), ',');
  }

  lemma ShownPiecesCommaFree(xs: seq<string>)
    requires xs != [] && forall i :: 0 <= i < |xs| ==> IsSkill(xs[i])
    ensures forall i :: 0 <= i < |xs| ==> ',' !in ([xs[0]] + Spaced(xs[1..]))[i]
  {
    var ys := [xs[0]] + Spaced(xs[1..]);
    forall i | 0 <= i < |xs| ensures ',' !in ys[i] {
      if i > 0 {
        assert ys[i] == " " + xs[i];
      }
    }
  }

  /** Parsing is a normalisation: parsing the shown text of a parsed list changes nothing. */
  lemma ParseSkillsIdempotent(input: string)
    ensures ParseSkills(Join(ParseSkills(input), ", ")) == ParseSkills(input)
  {
    SkillsRoundTrip(ParseSkills(input));
  }

  // ---------------------------------------------------------------- edited copies

  /** The seven fields the main panel starts with and falls back to in edit mode. */
  const TextDefaults: set<string> := {"bio", "companyDescription", "companySize", "companyWebsite"}
  const ListDefaults: set<string> := {"skills", "education", "experience"}

  const ContentDefaults: Doc := map[
    "bio" := Text(""), "skills" := Items([]), "education" := Items([]), "experience" := Items([]),
    "companyDescription" := Text(""), "companySize" := Text(""), "companyWebsite" := Text("")]

  /** `{ ...edited, ...profile }`, the main panel's copy when a profile arrives: the profile's
      fields over the copy's. */
  function Loaded(edited: Doc, profile: Doc): (r: Doc)
    ensures r.Keys == edited.Keys + profile.Keys
    ensures forall k :: k in profile ==> r[k] == profile[k]
    ensures forall k :: k in edited && k !in profile ==> r[k] == edited[k]
  {
    edited + profile
  }

  /** The main panel's copy on entering edit mode: the profile over the copy, then each of the
      seven fields the profile's truthy value or its empty default. */
  function EditDefaults(edited: Doc, profile: Doc): (r: Doc)
    ensures r.Keys == edited.Keys + profile.Keys + TextDefaults + ListDefaults
    ensures forall k :: k in profile && IsTruthy(profile[k]) ==> r[k] == profile[k]
    ensures forall k :: k in TextDefaults && !(k in profile && IsTruthy(profile[k])) ==> r[k] == Text("")
    ensures forall k :: k in ListDefaults && !(k in profile && IsTruthy(profile[k])) ==> r[k] == Items([])
    ensures forall k :: k in profile && k !in TextDefaults && k !in ListDefaults ==> r[k] == profile[k]
    ensures forall k :: k in edited && k !in profile && k !in TextDefaults && k !in ListDefaults ==> r[k] == edited[k]
  {
    var p := Some(profile);
    map k | k in edited.Keys + profile.Keys + TextDefaults + ListDefaults ::
      if k in TextDefaults then FieldOr(p, k, Text(""))
      else if k in ListDefaults then FieldOr(p, k, Items([]))
      else if k in profile then profile[k]
      else edited[k]
  }

  /** When a new profile arrives while editing, both effects run; applying them one after
      the other gives what the edit-mode effect alone gives. */
  lemma EffectsAgree(edited: Doc, profile: Doc)
    ensures EditDefaults(Loaded(edited, profile), profile) == EditDefaults(edited, profile)
  {
    assert Loaded(edited, profile) + profile == edited + profile;
  }

  /** The fields the sidebar edits. */
  const SidebarFields: set<string> :=
    {"firstName", "lastName", "title", "companyName", "industry", "contactPhone", "location"}

  /** `handleStartEdit`'s copy: the profile (nothing when there is none) with each sidebar
      field its truthy value or "". */
  function StartEditCopy(profile: Option<Doc>): (r: Doc)
    ensures r.Keys == (if profile.Some? then profile.value.Keys else {}) + SidebarFields
    ensures forall k :: k in SidebarFields ==> r[k] == FieldOr(profile, k, Text(""))
    ensures forall k :: k in SidebarFields ==> r[k] == Text("") || IsTruthy(r[k])
    ensures profile.Some? ==> forall k :: k in profile.value && k !in SidebarFields ==> r[k] == profile.value[k]
  {
    var base: Doc := if profile.Some? then profile.value else map[];
    map k | k in base.Keys + SidebarFields :: if k in SidebarFields then FieldOr(profile, k, Text("")) else base[k]
  }

  /** The body the sidebar saves: its copy (nothing when there is none), with the placeholder
      picture address when a picture file was chosen. */
  function SaveBody(edited: Option<Doc>, pictureChosen: bool): (r: Doc)
    ensures pictureChosen ==> "profilePicture" in r && r["profilePicture"] == Text(UploadedPicture)
    ensures edited.Some? ==> forall k :: k in edited.value && k != "profilePicture" ==> k in r && r[k] == edited.value[k]
    ensures edited.None? ==> r.Keys <= {"profilePicture"}
    ensures !pictureChosen ==> r == (if edited.Some? then edited.value else map[])
    ensures r.Keys == (if edited.Some? then edited.value.Keys else {}) + (if pictureChosen then {"profilePicture"} else {})
  {
    var base: Doc := if edited.Some? then edited.value else map[];
    if pictureChosen then base["profilePicture" := Text(UploadedPicture)] else base
  }

  const UploadedPicture := "uploaded_picture_url"
  const UpdateFailed := "Failed to update profile. Please try again."

  /** What `handleUpdateProfile` resolves to. */
  datatype UpdateResult = Success | Failure(error: string)

  // ---------------------------------------------------------------- components

  /** The page: the loaded profile and whether it is being edited. */
  class ProfilePage {
    var profile: Option<Doc>
    var editMode: bool

    constructor (profile: Option<Doc>)
      ensures this.profile == profile && !editMode
    {
      this.profile := profile;
      editMode := false;
    }

    /** `handleEditToggle`. */
    method HandleEditToggle()
      modifies this`editMode
      ensures editMode == !old(editMode)
    {
      editMode := !editMode;
    }

    /** `handleUpdateProfile`: `reply` is what the profile service answers with, nothing when
        the request fails. Success stores the answer and leaves edit mode; failure changes
        nothing. */
    method HandleUpdateProfile(updated: Doc, reply: Option<Doc>) returns (result: UpdateResult)
      modifies this
      ensures reply.Some? ==> result == Success && profile == reply && !editMode
      ensures reply.None? ==> result == Failure(UpdateFailed) && unchanged(this)
    {
      if reply.Some? {
        profile := reply;
        editMode := false;
        result := Success;
      } else {
        result := Failure(UpdateFailed);
      }
    }
  }

  /** The main panel's edited copy, which follows the page's profile and edit mode. */
  class ProfileContent {
    var editedProfile: Doc

    constructor ()
      ensures editedProfile == ContentDefaults
    {
      editedProfile := ContentDefaults;
    }

    /** The effect on a new profile. */
    method OnProfile(profile: Option<Doc>)
      modifies this
      ensures profile.Some? ==> editedProfile == Loaded(old(editedProfile), profile.value)
      ensures profile.None? ==> editedProfile == old(editedProfile)
    {
      if profile.Some? {
        editedProfile := Loaded(editedProfile, profile.value);
      }
    }

    /** The effect on a new edit mode or profile. */
    method OnEditMode(editMode: bool, profile: Option<Doc>)
      modifies this
      ensures editMode && profile.Some? ==> editedProfile == EditDefaults(old(editedProfile), profile.value)
      ensures !(editMode && profile.Some?) ==> editedProfile == old(editedProfile)
    {
      if editMode && profile.Some? {
        editedProfile := EditDefaults(editedProfile, profile.value);
      }
    }

    /** `handleInputChange`: the named field alone takes the new value. */
    method HandleInputChange(name: string, value: PValue)
      modifies this
      ensures editedProfile == old(editedProfile)[name := value]
      ensures forall k :: k in old(editedProfile) && k != name ==> editedProfile[k] == old(editedProfile)[k]
    {
      editedProfile := editedProfile[name := value];
    }

    /** The skills box: the named field takes the parsed list. */
    method HandleSkillsChange(input: string)
      modifies this
      ensures editedProfile == old(editedProfile)["skills" := Items(ParseSkills(input))]
    {
      HandleInputChange("skills", Items(ParseSkills(input)));
    }
  }

  /** The sidebar: its own edited copy (none outside editing), the chosen picture and the
      save error; it toggles and updates through the page. */
  class ProfileSidebar {
    const page: ProfilePage
    var editedProfile: Option<Doc>
    /** The picture shown in place of the stored one, and whether a file was chosen. */
    var picturePreview: Option<string>
    var pictureChosen: bool
    var saving: bool
    var saveError: Option<string>

    constructor (page: ProfilePage)
      ensures this.page == page
      ensures editedProfile.None? && picturePreview.None? && !pictureChosen && !saving && saveError.None?
    {
      this.page := page;
      editedProfile := None;
      picturePreview := None;
      pictureChosen := false;
      saving := false;
      saveError := None;
    }

    /** `handleStartEdit`: a fresh copy of the page's profile, then the edit-mode toggle. */
    method HandleStartEdit()
      modifies this, page
      ensures editedProfile == Some(StartEditCopy(old(page.profile)))
      ensures page.editMode == !old(page.editMode) && page.profile == old(page.profile)
      ensures picturePreview == old(picturePreview) && pictureChosen == old(pictureChosen)
      ensures saveError == old(saveError) && saving == old(saving)
    {
      editedProfile := Some(StartEditCopy(page.profile));
      page.HandleEditToggle();
    }

    /** `handleCancelEdit`: drops the copy, the error and the chosen file, and the preview
        unless the profile has a picture; then the edit-mode toggle. */
    method HandleCancelEdit()
      modifies this, page
      ensures editedProfile.None? && saveError.None? && !pictureChosen
      ensures var p := old(page.profile);
        picturePreview == if p.Some? && "profilePicture" in p.value && IsTruthy(p.value["profilePicture"])
                          then old(picturePreview) else None
      ensures page.editMode == !old(page.editMode) && page.profile == old(page.profile)
      ensures saving == old(saving)
    {
      editedProfile := None;
      saveError := None;
      var p := page.profile;
      if !(p.Some? && "profilePicture" in p.value && IsTruthy(p.value["profilePicture"])) {
        picturePreview := None;
      }
      pictureChosen := false;
      page.HandleEditToggle();
    }

    /** `handleInputChange`: the named field alone takes the typed text (a missing copy counts
        as an empty one). */
    method HandleInputChange(name: string, value: string)
      modifies this`editedProfile
      ensures editedProfile.Some? && name in editedProfile.value && editedProfile.value[name] == Text(value)
      ensures old(editedProfile).Some? ==> editedProfile.value == old(editedProfile).value[name := Text(value)]
      ensures old(editedProfile).None? ==> editedProfile.value == map[name := Text(value)]
    {
      var prev: Doc := if editedProfile.Some? then editedProfile.value else map[];
      editedProfile := Some(prev[name := Text(value)]);
    }

    /** `handleProfilePictureChange`: a chosen file replaces the preview with `previewUrl`;
        choosing nothing changes nothing. */
    method HandleProfilePictureChange(fileChosen: bool, previewUrl: string)
      modifies this`picturePreview, this`pictureChosen
      ensures fileChosen ==> pictureChosen && picturePreview == Some(previewUrl)
      ensures !fileChosen ==> pictureChosen == old(pictureChosen) && picturePreview == old(picturePreview)
    {
      if fileChosen {
        pictureChosen := true;
        picturePreview := Some(previewUrl);
      }
    }

    /** `handleSaveProfile`: sends the save body through the page; the error shown is the
        failure's, and none after a success. */
    method HandleSaveProfile(reply: Option<Doc>) returns (sent: Doc)
      modifies this, page
      ensures sent == SaveBody(old(editedProfile), old(pictureChosen))
      ensures reply.Some? ==> saveError.None? && page.profile == reply && !page.editMode
      ensures reply.None? ==>
        saveError == Some(UpdateFailed) && page.profile == old(page.profile) && page.editMode == old(page.editMode)
      ensures !saving
      ensures editedProfile == old(editedProfile) && pictureChosen == old(pictureChosen)
      ensures picturePreview == old(picturePreview)
    {
      saving := true;
      saveError := None;
      sent := SaveBody(editedProfile, pictureChosen);
      var result := page.HandleUpdateProfile(sent, reply);
      if result.Failure? {
        saveError := Some(result.error);
      }
      saving := false;
    }
  }
}
