/**
 * The admin's movie form, used both to add a movie and to edit one: the
 * admin gate, the poster checks, the actor list's text form and the save.
 */
module MovieFormPage {
  import opened Wrappers
  import opened Errors
  import opened Routes
  import opened Text
  import opened Lists
  import opened Catalog

  const REQUIRED := "Please fill in all required fields"
  const NOT_IMAGE := "Please select an image file"
  const TOO_LARGE := "Image size should not exceed 5MB"
  const FETCH_FAILED := "Failed to fetch movie details"
  const SAVE_FAILED := "Failed to save movie"
  const MAX_POSTER_BYTES := 5 * 1024 * 1024

  /** `.map(a => a.trim())`. */
  function TrimEach(parts: seq<string>): (r: seq<string>)
    ensures |r| == |parts|
    ensures forall i :: 0 <= i < |parts| ==> r[i] == Trim(parts[i])
  {
    seq(|parts|, i requires 0 <= i < |parts| => Trim(parts[i]))
  }

  /**
   * Trims each part and drops the parts that end up empty:
   * `.map(a => a.trim()).filter(a => a)`. Which parts survive, and how
   * often, is `CleanPartsKeepsPieces`.
   */
  function CleanParts(parts: seq<string>): (r: seq<string>)
    ensures |r| <= |parts|
    ensures forall i :: 0 <= i < |r| ==> r[i] != [] && IsTrimmed(r[i])
  {
    if parts == [] then []
    else
      var t := Trim(parts[0]);
      (if t == [] then [] else [t]) + CleanParts(parts[1..])
  }

  /** `CleanParts` keeps the trimmed parts in their order. */
  lemma {:induction false} CleanPartsInOrder(parts: seq<string>)
    ensures IsSubsequence(CleanParts(parts), TrimEach(parts))
  {
    if parts != [] {
      CleanPartsInOrder(parts[1..]);
      var t := Trim(parts[0]);
      var rest := CleanParts(parts[1..]);
      assert TrimEach(parts)[1..] == TrimEach(parts[1..]);
      if t != [] {
        assert CleanParts(parts) == [t] + rest;
        assert ([t] + rest)[1..] == rest;
      } else {
        assert CleanParts(parts) == rest;
      }
    }
  }

  /** `CleanParts` keeps each part that does not trim to nothing, trimmed. */
  lemma {:induction false} CleanPartsKeepsEach(parts: seq<string>)
    ensures forall i :: 0 <= i < |parts| && Trim(parts[i]) != [] ==> Trim(parts[i]) in CleanParts(parts)
  {
    if parts != [] {
      CleanPartsKeepsEach(parts[1..]);
      forall i | 1 <= i < |parts| && Trim(parts[i]) != [] ensures Trim(parts[i]) in CleanParts(parts) {
        assert parts[i] == parts[1..][i - 1];
      }
    }
  }

  /** `CleanParts` keeps each non-empty trimmed part as often as it occurs, and nothing else. */
  lemma {:induction false} CleanPartsCounts(parts: seq<string>)
    ensures forall t :: multiset(CleanParts(parts))[t] == if t != [] then multiset(TrimEach(parts))[t] else 0
  {
    if parts != [] {
      CleanPartsCounts(parts[1..]);
      assert TrimEach(parts) == [Trim(parts[0])] + TrimEach(parts[1..]);
    }
  }

  /**
   * `CleanParts` keeps exactly the parts that do not trim to nothing, trimmed,
   * each as often as it occurs, in their order.
   */
  lemma CleanPartsKeepsPieces(parts: seq<string>)
    ensures IsSubsequence(CleanParts(parts), TrimEach(parts))
    ensures forall i :: 0 <= i < |parts| && Trim(parts[i]) != [] ==> Trim(parts[i]) in CleanParts(parts)
    ensures forall t :: multiset(CleanParts(parts))[t] == if t != [] then multiset(TrimEach(parts))[t] else 0
  {
    CleanPartsInOrder(parts);
    CleanPartsKeepsEach(parts);
    CleanPartsCounts(parts);
  }

  /** Cleaning adds no comma. */
  lemma {:induction false} CleanPartsAddNoComma(parts: seq<string>)
    requires forall k :: 0 <= k < |parts| ==> ',' !in parts[k]
    ensures forall i :: 0 <= i < |CleanParts(parts)| ==> ',' !in CleanParts(parts)[i]
  {
    if parts != [] {
      TrimAddsNothing(parts[0], ',');
      CleanPartsAddNoComma(parts[1..]);
    }
  }

  /**
   * `actors.split(',').map(a => a.trim()).filter(a => a)`: non-empty, trimmed
   * names without commas. Which pieces they are is `ParseActorsKeepsPieces`.
   */
  function ParseActors(s: string): (r: seq<string>)
    ensures forall i :: 0 <= i < |r| ==> r[i] != [] && IsTrimmed(r[i]) && ',' !in r[i]
  {
    CleanPartsAddNoComma(Split(s, ','));
    CleanParts(Split(s, ','))
  }

  /**
   * The names read from `s` are its comma-separated pieces that are not blank,
   * trimmed, each as often as it occurs, in their order.
   */
  lemma ParseActorsKeepsPieces(s: string)
    ensures IsSubsequence(ParseActors(s), TrimEach(Split(s, ',')))
    ensures forall i :: 0 <= i < |Split(s, ',')| && Trim(Split(s, ',')[i]) != [] ==> Trim(Split(s, ',')[i]) in ParseActors(s)
    ensures forall t :: multiset(ParseActors(s))[t] == if t != [] then multiset(TrimEach(Split(s, ',')))[t] else 0
  {
    CleanPartsKeepsPieces(Split(s, ','));
  }

  /** An empty piece between two commas is dropped. */
  lemma EmptyPieceDropped()
    ensures ParseActors("a,,b") == ["a", "b"]
  {
    assert "a,,b" == "a" + [','] + ",b";
    assert ",b" == "" + [','] + "b";
    SplitAt("a", ',', ",b");
    SplitAt("", ',', "b");
    SplitWithout("b", ',');
    assert Split("a,,b", ',') == ["a", "", "b"];
    TrimOfTrimmed("a");
    TrimOfTrimmed("b");
    assert ["a", "", "b"][1..] == ["", "b"];
    assert ["", "b"][1..] == ["b"];
  }

  /** Each name behind ", ", as `split(',')` returns the pieces of a `join(', ')` after the first. */
  function Spaced(names: seq<string>): (r: seq<string>)
    ensures |r| == |names|
    ensures forall i :: 0 <= i < |names| ==> r[i] == " " + names[i]
  {
    seq(|names|, i requires 0 <= i < |names| => " " + names[i])
  }

  predicate CleanName(name: string) {
    name != [] && IsTrimmed(name) && ',' !in name
  }

  lemma {:induction false} SplitJoined(p: string, names: seq<string>)
    requires |names| >= 1 && ',' !in p
    requires forall i :: 0 <= i < |names| ==> ',' !in names[i]
    ensures Split(p + Join(names, ", "), ',') == [p + names[0]] + Spaced(names[1..])
    decreases |names|
  {
    if |names| == 1 {
      SplitWithout(p + names[0], ',');
    } else {
      var rest := names[1..];
      assert p + Join(names, ", ") == (p + names[0]) + [','] + (" " + Join(rest, ", "));
      SplitAt(p + names[0], ',', " " + Join(rest, ", "));
      SplitJoined(" ", rest);
      assert Spaced(rest) == [" " + rest[0]] + Spaced(rest[1..]);
    }
  }

  /** A first part that trims to a non-empty name is kept as that name. */
  lemma CleanHead(part: string, rest: seq<string>)
    requires Trim(part) != []
    ensures CleanParts([part] + rest) == [Trim(part)] + CleanParts(rest)
  {
    assert ([part] + rest)[1..] == rest;
  }

  lemma {:induction false} CleanSpaced(names: seq<string>)
    requires forall i :: 0 <= i < |names| ==> names[i] != [] && IsTrimmed(names[i])
    ensures CleanParts(Spaced(names)) == names
  {
    if names != [] {
      TrimAfterSpace(' ', names[0]);
      assert [' '] + names[0] == " " + names[0];
      assert Spaced(names) == [" " + names[0]] + Spaced(names[1..]);
      CleanHead(" " + names[0], Spaced(names[1..]));
      CleanSpaced(names[1..]);
      assert [names[0]] + names[1..] == names;
    }
  }

  /** A clean first part survives `CleanParts` as it is. */
  lemma CleanFirst(name: string, rest: seq<string>)
    requires name != [] && IsTrimmed(name)
    ensures CleanParts([name] + rest) == [name] + CleanParts(rest)
  {
    TrimOfTrimmed(name);
    CleanHead(name, rest);
  }

  /** Splitting the `join(', ')` of names without commas gives the first name and the rest behind a space. */
  lemma SplitOfJoined(names: seq<string>)
    requires |names| >= 1
    requires forall i :: 0 <= i < |names| ==> ',' !in names[i]
    ensures Split(Join(names, ", "), ',') == [names[0]] + Spaced(names[1..])
  {
    SplitJoined([], names);
    assert [] + Join(names, ", ") == Join(names, ", ");
    assert [] + names[0] == names[0];
  }

  /** Reading back the `join(', ')` of clean names gives the same names. */
  lemma {:induction false} ActorsRoundTrip(names: seq<string>)
    requires forall i :: 0 <= i < |names| ==> CleanName(names[i])
    ensures ParseActors(Join(names, ", ")) == names
  {
    if names == [] {
      assert Split([], ',') == [[]];
      assert Trim([]) == [];
    } else {
      SplitOfJoined(names);
      CleanFirst(names[0], Spaced(names[1..]));
      CleanSpaced(names[1..]);
      assert [names[0]] + names[1..] == names;
    }
  }

  /** `!!id`: the page edits a movie when the route gave it an id. */
  predicate IsEditMode(id: Option<string>) {
    id.Some? && id.value != ""
  }

  /** A selected poster file. */
  datatype PosterFile = PosterFile(mime: string, size: int)

  /** `handlePosterChange`'s checks: the type must mention "image", and the size may be at most 5 MiB. */
  function PosterProblem(file: PosterFile): (r: Option<string>)
    ensures r.None? <==> Contains(file.mime, "image") && file.size <= MAX_POSTER_BYTES
    ensures !Contains(file.mime, "image") ==> r == Some(NOT_IMAGE)
    ensures Contains(file.mime, "image") && file.size > MAX_POSTER_BYTES ==> r == Some(TOO_LARGE)
  {
    if !Contains(file.mime, "image") then Some(NOT_IMAGE)
    else if file.size > MAX_POSTER_BYTES then Some(TOO_LARGE)
    else None
  }

  /** A PNG of exactly 5 MiB passes; one byte more does not. */
  lemma PosterLimitIsInclusive()
    ensures PosterProblem(PosterFile("image/png", 5242880)) == None
    ensures PosterProblem(PosterFile("image/png", 5242881)) == Some(TOO_LARGE)
    ensures PosterProblem(PosterFile("text", 10)) == Some(NOT_IMAGE)
  {
    assert IsPrefix("image", "image/png");
    assert !Contains("text", "image") by {
      ContainsIffOccurs("text", "image");
    }
  }

  datatype Form = Form(
    title: string,
    director: string,
    actors: string,
    genre: string,
    releaseYear: int,
    synopsis: string,
    posterPath: string,
    imagePublicId: string)

  /** What is sent to create or update a movie. */
  datatype MovieData = MovieData(
    title: string,
    director: string,
    actors: seq<string>,
    genre: string,
    releaseYear: int,
    synopsis: string,
    imageUrl: string,
    imagePublicId: string)

  /** The upload endpoint's answer. */
  datatype Upload = Upload(url: string, publicId: string)

  /** The service calls the submit handler makes. */
  datatype Call = UploadPosterCall(file: PosterFile) | UpdateMovieCall(id: string, data: MovieData) | CreateMovieCall(data: MovieData)

  /** The form filled from a fetched movie, actors joined with ", ". */
  function FormOf(m: Movie): (f: Form)
    ensures f.actors == Join(m.actors, ", ")
    ensures f.title == m.title && f.director == m.director && f.genre == m.genre
    ensures f.releaseYear == m.releaseYear && f.synopsis == m.synopsis
    ensures f.posterPath == m.imageUrl && f.imagePublicId == m.imagePublicId
  {
    Form(m.title, m.director, Join(m.actors, ", "), m.genre, m.releaseYear, m.synopsis, m.imageUrl, m.imagePublicId)
  }

  predicate MissingRequired(f: Form) {
    f.title == "" || f.director == "" || f.genre == ""
  }

  /** The movie data built from the form and the image the save should point at. */
  function DataOf(f: Form, imageUrl: string, imagePublicId: string): (d: MovieData)
    ensures d.actors == ParseActors(f.actors)
    ensures d.title == f.title && d.director == f.director && d.genre == f.genre
    ensures d.releaseYear == f.releaseYear && d.synopsis == f.synopsis
    ensures d.imageUrl == imageUrl && d.imagePublicId == imagePublicId
  {
    MovieData(f.title, f.director, ParseActors(f.actors), f.genre, f.releaseYear, f.synopsis, imageUrl, imagePublicId)
  }

  /** Editing a movie whose actor names are clean and saving it unchanged sends the same actor list back. */
  lemma UnchangedEditKeepsActors(m: Movie, imageUrl: string, imagePublicId: string)
    requires forall i :: 0 <= i < |m.actors| ==> CleanName(m.actors[i])
    ensures DataOf(FormOf(m), imageUrl, imagePublicId).actors == m.actors
  {
    ActorsRoundTrip(m.actors);
  }

  /** Edit mode updates the movie with that id; otherwise a movie is created. */
  function SaveCall(id: Option<string>, data: MovieData): (c: Call)
    ensures IsEditMode(id) ==> c == UpdateMovieCall(id.value, data)
    ensures !IsEditMode(id) ==> c == CreateMovieCall(data)
  {
    if IsEditMode(id) then UpdateMovieCall(id.value, data) else CreateMovieCall(data)
  }

  /** The page's component state; `id` is the route parameter. */
  class MovieFormPage {
    const id: Option<string>
    var form: Form
    var posterFile: Option<PosterFile>
    var posterPreview: Option<string>
    var loading: bool
    var error: string
    var initialLoading: bool
    var navigated: Option<Navigation>

    /** `currentYear` is what `new Date().getFullYear()` returns. */
    constructor (id: Option<string>, currentYear: int)
      ensures this.id == id && initialLoading == IsEditMode(id)
      ensures form == Form("", "", "", "", currentYear, "", "", "")
      ensures posterFile == None && posterPreview == Some("") && !loading && error == "" && navigated == None
    {
      this.id := id;
      form := Form("", "", "", "", currentYear, "", "", "");
      posterFile := None;
      posterPreview := Some("");
      loading := false;
      error := "";
      initialLoading := IsEditMode(id);
      navigated := None;
    }

    /**
     * The mount effect. A non-admin is sent to `/` and nothing is fetched;
     * in edit mode `fetched` is what fetching the movie settles to.
     * `fetchedId` is the id fetched, if any.
     */
    method Mount(isAdmin: bool, fetched: Result<Movie, Thrown>) returns (fetchedId: Option<string>)
      modifies this
      ensures posterFile == old(posterFile) && loading == old(loading)
      ensures !isAdmin ==>
                fetchedId == None && navigated == Some(Navigation("/", false, None))
                && form == old(form) && posterPreview == old(posterPreview)
                && error == old(error) && initialLoading == old(initialLoading)
      ensures isAdmin && !IsEditMode(id) ==>
                fetchedId == None && navigated == old(navigated)
                && form == old(form) && posterPreview == old(posterPreview)
                && error == old(error) && initialLoading == old(initialLoading)
      ensures isAdmin && IsEditMode(id) ==> fetchedId == id && navigated == old(navigated) && !initialLoading
      ensures isAdmin && IsEditMode(id) && fetched.Success? ==>
                form == FormOf(fetched.value) && posterPreview == Some(fetched.value.imageUrl) && error == old(error)
      ensures isAdmin && IsEditMode(id) && fetched.Failure? ==>
                form == old(form) && posterPreview == old(posterPreview) && error == FETCH_FAILED
    {
      if !isAdmin {
        navigated := Some(Navigation("/", false, None));
        return None;
      }
      fetchedId := None;
      if IsEditMode(id) {
        initialLoading := true;
        fetchedId := id;
        match fetched {
          case Success(m) =>
            form := FormOf(m);
            posterPreview := Some(m.imageUrl);
          case Failure(_) =>
            error := FETCH_FAILED;
        }
        initialLoading := false;
      }
    }

    /**
     * `handlePosterChange` with the first selected file, if any. A rejected
     * file leaves the selection as it was. The preview a `FileReader` later
     * produces is not modelled.
     */
    method HandlePosterChange(file: Option<PosterFile>)
      modifies this
      ensures form == old(form) && posterPreview == old(posterPreview) && loading == old(loading)
      ensures initialLoading == old(initialLoading) && navigated == old(navigated)
      ensures file.None? ==> posterFile == old(posterFile) && error == old(error)
      ensures file.Some? && PosterProblem(file.value).Some? ==>
                posterFile == old(posterFile) && error == PosterProblem(file.value).value
      ensures file.Some? && PosterProblem(file.value).None? ==> posterFile == file && error == old(error)
    {
      if file.Some? {
        var problem := PosterProblem(file.value);
        if problem.Some? {
          error := problem.value;
          return;
        }
        posterFile := file;
      }
    }

    /** `handleResetPoster`: the selection is dropped and the preview falls back to the stored poster. */
    method HandleResetPoster()
      modifies this
      ensures posterFile == None
      ensures posterPreview == if form.posterPath != "" then Some(form.posterPath) else None
      ensures form == old(form) && error == old(error) && loading == old(loading)
      ensures initialLoading == old(initialLoading) && navigated == old(navigated)
    {
      posterFile := None;
      posterPreview := if form.posterPath != "" then Some(form.posterPath) else None;
    }

    /**
     * `handleSubmit`. `upload` and `save` are how the upload and the
     * create/update calls settle if they are made; `calls` lists the calls made.
     */
    method HandleSubmit(upload: Result<Upload, Thrown>, save: Result<(), Thrown>) returns (calls: seq<Call>)
      modifies this
      ensures form == old(form) && posterFile == old(posterFile) && posterPreview == old(posterPreview)
      ensures initialLoading == old(initialLoading)
      ensures MissingRequired(form) ==>
                calls == [] && error == REQUIRED && loading == old(loading) && navigated == old(navigated)
      ensures !MissingRequired(form) ==> !loading
      ensures !MissingRequired(form) && posterFile.Some? && upload.Failure? ==>
                calls == [UploadPosterCall(posterFile.value)]
                && error == MessageOr(upload.error, SAVE_FAILED) && navigated == old(navigated)
      ensures !MissingRequired(form) && posterFile.Some? && upload.Success? ==>
                calls == [UploadPosterCall(posterFile.value),
                          SaveCall(id, DataOf(form, upload.value.url, upload.value.publicId))]
                && (save.Success? ==> error == "" && navigated == Some(Navigation("/admin/dashboard", false, None)))
                && (save.Failure? ==> error == MessageOr(save.error, SAVE_FAILED) && navigated == old(navigated))
      ensures !MissingRequired(form) && posterFile.None? ==>
                calls == [SaveCall(id, DataOf(form, form.posterPath, form.imagePublicId))]
                && (save.Success? ==> error == "" && navigated == Some(Navigation("/admin/dashboard", false, None)))
                && (save.Failure? ==> error == MessageOr(save.error, SAVE_FAILED) && navigated == old(navigated))
    {
      var f := form;
      if MissingRequired(f) {
        error := REQUIRED;
        return [];
      }
      loading := true;
      error := "";
      if posterFile.Some? {
        match upload {
          case Failure(e) =>
            error := MessageOr(e, SAVE_FAILED);
            loading := false;
            return [UploadPosterCall(posterFile.value)];
          case Success(answer) =>
            var call := Save(DataOf(f, answer.url, answer.publicId), save);
            return [UploadPosterCall(posterFile.value), call];
        }
      }
      var call := Save(DataOf(f, f.posterPath, f.imagePublicId), save);
      return [call];
    }

    /** The create or update call of `handleSubmit`, settling as `save`, and what follows it. */
    method Save(data: MovieData, save: Result<(), Thrown>) returns (call: Call)
      modifies this
      ensures call == SaveCall(id, data)
      ensures form == old(form) && posterFile == old(posterFile) && posterPreview == old(posterPreview)
      ensures initialLoading == old(initialLoading) && !loading
      ensures save.Success? ==> error == old(error) && navigated == Some(Navigation("/admin/dashboard", false, None))
      ensures save.Failure? ==> error == MessageOr(save.error, SAVE_FAILED) && navigated == old(navigated)
    {
      match save {
        case Success(_) =>
          navigated := Some(Navigation("/admin/dashboard", false, None));
        case Failure(e) =>
          error := MessageOr(e, SAVE_FAILED);
      }
      loading := false;
      call := SaveCall(id, data);
    }
  }
}
