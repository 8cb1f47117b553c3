/**
 * `model_release.py`: every packaged model folder becomes a GitHub release
 * whose tag and name are the folder's name, whose body is the folder's
 * README and whose files are its dist files; then every release of the
 * repository is checked (its name is its tag, it has exactly the wheel and
 * the source archive of that tag) and every uploaded tag must have been
 * found among them.
 *
 * The token file's contents, the model folders (name, README if present,
 * dist file names) and the repository's releases are inputs; so is the set of
 * tags whose `create_release` call the API refuses. Printing, the rate limit
 * and the HTTP calls themselves are outside the model.
 */
module ModelRelease {
  import opened Wrappers
  import opened Json

  /** One entry of the models folder. */
  datatype ModelFolder = ModelFolder(name: string, readme: Option<string>, dist: seq<string>)

  /** The arguments of one `api.create_release` call. */
  datatype ReleaseRequest = ReleaseRequest(
    tagName: string,
    branch: string,
    name: string,
    body: string,
    draft: bool,
    prerelease: bool,
    files: seq<string>)

  /** A release as the API lists it: its name, its tag and the names of its assets. */
  datatype Release = Release(name: string, tagName: string, assets: seq<string>)

  /** Why the script stops. */
  datatype ReleaseError =
    | PatLookup(cause: PyError)
    | NoPat
    | ReadmeNotFound(folder: string)
    | CreateReleaseRefused(tagName: string)
    | DuplicateFolderNames
    | NameIsNotTag(tagName: string)
    | AssetCount(tagName: string, count: nat)
    | MissingAssets(tagName: string, missing: seq<string>)
    | NotReleased(tags: set<string>)

  /** The uploads made, and the error that stopped the script, if any. */
  datatype Outcome = Outcome(uploaded: seq<ReleaseRequest>, error: Option<ReleaseError>)

  // ---------------------------------------------------------------------
  // The token
  // ---------------------------------------------------------------------

  /** `json.load(pat_fp)['PAT']`, which must be truthy. */
  function PatOf(patFile: Json): (r: Result<Json, ReleaseError>)
    ensures r.Ok? <==> patFile.JObj? && Get(patFile.fields, "PAT").Some? && Truthy(Get(patFile.fields, "PAT").value)
    ensures r.Ok? ==> Subscript(patFile, "PAT") == Ok(r.value)
  {
    match Subscript(patFile, "PAT")
    case Err(e) => Err(PatLookup(e))
    case Ok(pat) => if !Truthy(pat) then Err(NoPat) else Ok(pat)
  }

  // ---------------------------------------------------------------------
  // The upload loop
  // ---------------------------------------------------------------------

  /** The release of a folder: tag and name are the folder's name, on `main`, published. */
  function RequestFor(folder: ModelFolder, readme: string): ReleaseRequest
  {
    ReleaseRequest(folder.name, "main", folder.name, readme, false, false, folder.dist)
  }

  /**
   * The upload loop over the folders in listing order: a missing README or a
   * refused release stops it.
   */
  function Uploads(folders: seq<ModelFolder>, refused: set<string>): (r: Outcome)
    ensures r.error.Some? ==> r.error.value.ReadmeNotFound? || r.error.value.CreateReleaseRefused?
    decreases |folders|
  {
    if |folders| == 0 then Outcome([], None)
    else
      var folder := folders[0];
      match folder.readme
      case None => Outcome([], Some(ReadmeNotFound(folder.name)))
      case Some(readme) =>
        if folder.name in refused then Outcome([], Some(CreateReleaseRefused(folder.name)))
        else
          var rest := Uploads(folders[1..], refused);
          Outcome([RequestFor(folder, readme)] + rest.uploaded, rest.error)
  }

  /** A folder the loop can upload: it has a README and the API accepts its release. */
  predicate Uploadable(folder: ModelFolder, refused: set<string>)
  {
    folder.readme.Some? && folder.name !in refused
  }

  /**
   * The loop finishes exactly when every folder can be uploaded, and then
   * there is one release per folder, in order, tagged with the folder's name
   * and carrying its README and dist files.
   */
  lemma {:induction false} UploadsAll(folders: seq<ModelFolder>, refused: set<string>)
    ensures Uploads(folders, refused).error.None? <==> forall i :: 0 <= i < |folders| ==> Uploadable(folders[i], refused)
    ensures Uploads(folders, refused).error.None? ==>
              var up := Uploads(folders, refused).uploaded;
              && |up| == |folders|
              && forall i :: 0 <= i < |folders| ==> up[i] == RequestFor(folders[i], folders[i].readme.value)
    decreases |folders|
  {
    if |folders| > 0 {
      UploadsAll(folders[1..], refused);
      assert forall i :: 1 <= i < |folders| ==> folders[i] == folders[1..][i - 1];
    }
  }

  /** The uploads made before a failure are those of the folders before the failing one. */
  lemma {:induction false} UploadsStopAt(folders: seq<ModelFolder>, refused: set<string>, k: nat)
    requires k < |folders|
    requires forall i :: 0 <= i < k ==> Uploadable(folders[i], refused)
    requires !Uploadable(folders[k], refused)
    ensures |Uploads(folders, refused).uploaded| == k
    ensures Uploads(folders, refused).error
            == Some(if folders[k].readme.None? then ReadmeNotFound(folders[k].name)
                    else CreateReleaseRefused(folders[k].name))
    decreases k
  {
    if k > 0 {
      assert forall i :: 0 <= i < k - 1 ==> folders[1..][i] == folders[i + 1];
      UploadsStopAt(folders[1..], refused, k - 1);
    }
  }

  /** The tags of the uploaded releases, in order. */
  function TagsOf(requests: seq<ReleaseRequest>): (r: seq<string>)
    ensures |r| == |requests|
    ensures forall i :: 0 <= i < |requests| ==> r[i] == requests[i].tagName
  {
    if |requests| == 0 then [] else [requests[0].tagName] + TagsOf(requests[1..])
  }

  // ---------------------------------------------------------------------
  // The duplicate check
  // ---------------------------------------------------------------------

  /** Python's `set(tags)`. */
  function ToSet(tags: seq<string>): (r: set<string>)
    ensures forall t :: t in r <==> t in tags
  {
    if |tags| == 0 then {} else {tags[0]} + ToSet(tags[1..])
  }

  predicate Distinct(tags: seq<string>)
  {
    forall i, j :: 0 <= i < j < |tags| ==> tags[i] != tags[j]
  }

  /**
   * The check `len(set(tags)) != len(tags)` finds exactly a repeated tag:
   * the set is never larger than the list and as large only when no tag
   * repeats.
   */
  lemma {:induction false} SetSizeDetectsRepeats(tags: seq<string>)
    ensures |ToSet(tags)| <= |tags|
    ensures |ToSet(tags)| == |tags| <==> Distinct(tags)
    decreases |tags|
  {
    if |tags| > 0 {
      SetSizeDetectsRepeats(tags[1..]);
      if tags[0] in tags[1..] {
        RepeatedHead(tags);
      } else {
        FreshHead(tags);
      }
    }
  }

  /** A head that occurs again adds nothing to the set and is a repeat. */
  lemma RepeatedHead(tags: seq<string>)
    requires |tags| > 0 && tags[0] in tags[1..]
    ensures ToSet(tags) == ToSet(tags[1..])
    ensures !Distinct(tags)
  {
    var k :| 0 <= k < |tags[1..]| && tags[1..][k] == tags[0];
    assert tags[k + 1] == tags[0];
  }

  /** A head that does not occur again adds one to the set and repeats nothing. */
  lemma FreshHead(tags: seq<string>)
    requires |tags| > 0 && tags[0] !in tags[1..]
    ensures |ToSet(tags)| == 1 + |ToSet(tags[1..])|
    ensures Distinct(tags) <==> Distinct(tags[1..])
  {
    var rest := tags[1..];
    assert ToSet(tags) == {tags[0]} + ToSet(rest);
    assert tags[0] !in ToSet(rest);
    if Distinct(rest) {
      FreshHeadDistinct(tags);
    }
  }

  /** Putting a fresh tag in front of distinct tags keeps them distinct. */
  lemma FreshHeadDistinct(tags: seq<string>)
    requires |tags| > 0 && tags[0] !in tags[1..] && Distinct(tags[1..])
    ensures Distinct(tags)
  {
    var rest := tags[1..];
    forall i, j | 0 <= i < j < |tags| ensures tags[i] != tags[j] {
      assert tags[j] == rest[j - 1];
      if i > 0 {
        assert tags[i] == rest[i - 1];
      }
    }
  }

  // ---------------------------------------------------------------------
  // Checking the releases
  // ---------------------------------------------------------------------

  /** The assets a release of a tag must have: its wheel and its source archive. */
  function AllowedAssets(tagName: string): (r: seq<string>)
    ensures |r| == 2 && r[0] != r[1]
  {
    var r := [tagName + "-py3-none-any.whl", tagName + ".tar.gz"];
    assert |r[0]| != |r[1]|;
    r
  }

  /** `list.remove(x)`: the first occurrence goes. */
  function RemoveFirst(s: seq<string>, x: string): (r: seq<string>)
    requires x in s
    ensures multiset(r) == multiset(s) - multiset{x}
  {
    if s[0] == x then
      assert s == [s[0]] + s[1..];
      s[1..]
    else
      assert s == [s[0]] + s[1..];
      [s[0]] + RemoveFirst(s[1..], x)
  }

  /** The asset loop: each asset name that is still allowed is removed from the list. */
  function Remaining(allowed: seq<string>, assets: seq<string>): seq<string>
    decreases |assets|
  {
    if |assets| == 0 then allowed
    else Remaining(if assets[0] in allowed then RemoveFirst(allowed, assets[0]) else allowed, assets[1..])
  }

  /** The names left over are the allowed ones the assets do not account for, counted as a multiset. */
  lemma {:induction false} RemainingIsDifference(allowed: seq<string>, assets: seq<string>)
    ensures multiset(Remaining(allowed, assets)) == multiset(allowed) - multiset(assets)
    decreases |assets|
  {
    if |assets| > 0 {
      var a, rest := assets[0], assets[1..];
      assert assets == [a] + rest;
      var next := if a in allowed then RemoveFirst(allowed, a) else allowed;
      assert Remaining(allowed, assets) == Remaining(next, rest);
      RemainingIsDifference(next, rest);
      if a in allowed {
        TakeOneThenRest(multiset(allowed), a, multiset(rest));
      } else {
        TakeAbsentThenRest(multiset(allowed), a, multiset(rest));
      }
    }
  }

  /** Taking away one `x` and then `n` is taking away `x` together with `n`. */
  lemma TakeOneThenRest(m: multiset<string>, x: string, n: multiset<string>)
    requires x in m
    ensures (m - multiset{x}) - n == m - (multiset{x} + n)
  {
    forall y ensures ((m - multiset{x}) - n)[y] == (m - (multiset{x} + n))[y] {
      if y == x {
        assert (m - multiset{x})[y] == m[y] - 1;
      } else {
        assert (m - multiset{x})[y] == m[y];
      }
    }
  }

  /** Taking away a name that is not there changes nothing. */
  lemma TakeAbsentThenRest(m: multiset<string>, x: string, n: multiset<string>)
    requires x !in m
    ensures m - n == m - (multiset{x} + n)
  {
    forall y ensures (m - n)[y] == (m - (multiset{x} + n))[y] {
      if y == x {
        assert m[y] == 0;
      }
    }
  }

  /**
   * A release with two assets passes the asset check exactly when its
   * assets are its tag's wheel and source archive, in either order.
   */
  lemma AssetsAccepted(tagName: string, assets: seq<string>)
    requires |assets| == 2
    ensures Remaining(AllowedAssets(tagName), assets) == [] <==> multiset(assets) == multiset(AllowedAssets(tagName))
  {
    var allowed := AllowedAssets(tagName);
    ghost var left := Remaining(allowed, assets);
    RemainingIsDifference(allowed, assets);
    assert allowed == [allowed[0], allowed[1]];
    assert assets == [assets[0], assets[1]];
    PairDifference(allowed[0], allowed[1], assets[0], assets[1]);
    assert |multiset(left)| == |left|;
  }

  /**
   * Taking two names away from two distinct names leaves nothing exactly
   * when they are the same two names.
   */
  lemma PairDifference(w: string, g: string, a0: string, a1: string)
    requires w != g
    ensures multiset{w, g} - multiset{a0, a1} == multiset{} <==> multiset{a0, a1} == multiset{w, g}
  {
    var m, n := multiset{w, g}, multiset{a0, a1};
    if m - n == multiset{} {
      assert (m - n)[w] == 0 && (m - n)[g] == 0;
      if a0 == w {
        assert a1 == g;
      } else {
        assert a1 == w && a0 == g;
      }
    }
  }

  /** What the loop asserts about one release. */
  predicate ValidRelease(release: Release)
  {
    release.name == release.tagName
    && |release.assets| == 2
    && multiset(release.assets) == multiset(AllowedAssets(release.tagName))
  }

  /** One release: the three assertions, then its tag is crossed off the uploaded set. */
  function CheckRelease(left: set<string>, release: Release): Result<set<string>, ReleaseError>
  {
    if release.name != release.tagName then Err(NameIsNotTag(release.tagName))
    else if |release.assets| != 2 then Err(AssetCount(release.tagName, |release.assets|))
    else
      var missing := Remaining(AllowedAssets(release.tagName), release.assets);
      if missing != [] then Err(MissingAssets(release.tagName, missing))
      else if release.tagName in left then Ok(left - {release.tagName})
      else Ok(left)
  }

  /** The release loop over all releases, in the order the pages list them. */
  function CheckFrom(left: set<string>, releases: seq<Release>): (r: Result<set<string>, ReleaseError>)
    ensures r.Err? ==> r.error.NameIsNotTag? || r.error.AssetCount? || r.error.MissingAssets?
    decreases |releases|
  {
    if |releases| == 0 then Ok(left)
    else
      var next :- CheckRelease(left, releases[0]);
      CheckFrom(next, releases[1..])
  }

  /** The tags of a list of releases. */
  function ReleasedTags(releases: seq<Release>): (r: set<string>)
    ensures forall t :: t in r <==> exists i :: 0 <= i < |releases| && releases[i].tagName == t
  {
    if |releases| == 0 then {}
    else
      var rest := ReleasedTags(releases[1..]);
      assert forall i :: 1 <= i < |releases| ==> releases[i] == releases[1..][i - 1];
      {releases[0].tagName} + rest
  }

  /** One release passes exactly when it is valid. */
  lemma CheckReleasePasses(left: set<string>, release: Release)
    ensures CheckRelease(left, release).Ok? <==> ValidRelease(release)
  {
    if release.name == release.tagName && |release.assets| == 2 {
      AssetsAccepted(release.tagName, release.assets);
    }
  }

  /** A release that passes crosses its tag off the uploaded set. */
  lemma CheckReleaseLeaves(left: set<string>, release: Release)
    requires CheckRelease(left, release).Ok?
    ensures CheckRelease(left, release).value == left - {release.tagName}
  {
    if release.tagName !in left {
      assert left - {release.tagName} == left;
    }
  }

  /** The release loop passes exactly when every release is valid. */
  lemma {:induction false} CheckFromPasses(left: set<string>, releases: seq<Release>)
    ensures CheckFrom(left, releases).Ok? <==> forall i :: 0 <= i < |releases| ==> ValidRelease(releases[i])
    decreases |releases|
  {
    if |releases| > 0 {
      var step := CheckRelease(left, releases[0]);
      CheckReleasePasses(left, releases[0]);
      AllValidCons(releases);
      if step.Ok? {
        assert CheckFrom(left, releases) == CheckFrom(step.value, releases[1..]);
        CheckFromPasses(step.value, releases[1..]);
      } else {
        assert CheckFrom(left, releases).Err?;
      }
    }
  }

  /** Every release is valid when the first one is and every later one is. */
  lemma AllValidCons(releases: seq<Release>)
    requires |releases| > 0
    ensures (forall i :: 0 <= i < |releases| ==> ValidRelease(releases[i]))
            <==> ValidRelease(releases[0]) && forall i :: 0 <= i < |releases[1..]| ==> ValidRelease(releases[1..][i])
  {
    assert forall i :: 1 <= i < |releases| ==> releases[i] == releases[1..][i - 1];
  }

  /** What the release loop leaves of the uploaded tags are those that no release carries. */
  lemma {:induction false} CheckFromLeaves(left: set<string>, releases: seq<Release>)
    requires CheckFrom(left, releases).Ok?
    ensures CheckFrom(left, releases).value == left - ReleasedTags(releases)
    decreases |releases|
  {
    if |releases| > 0 {
      var r := releases[0];
      CheckReleaseLeaves(left, r);
      var next := CheckRelease(left, r).value;
      CheckFromLeaves(next, releases[1..]);
      assert ReleasedTags(releases) == {r.tagName} + ReleasedTags(releases[1..]);
    }
  }

  /** The releases of all pages, page after page. */
  function Flatten(pages: seq<seq<Release>>): seq<Release>
    decreases |pages|
  {
    if |pages| == 0 then [] else pages[0] + Flatten(pages[1..])
  }

  // ---------------------------------------------------------------------
  // The script
  // ---------------------------------------------------------------------

  /**
   * The script as a value: the token, the uploads, the duplicate check
   * (after every folder has been uploaded), the release checks and the final
   * check that every uploaded tag was found.
   */
  function ReleaseOutcome(patFile: Json, folders: seq<ModelFolder>, refused: set<string>,
                          pages: seq<seq<Release>>): Outcome
  {
    match PatOf(patFile)
    case Err(e) => Outcome([], Some(e))
    case Ok(_) =>
      var up := Uploads(folders, refused);
      if up.error.Some? then up
      else
        var tags := TagsOf(up.uploaded);
        if |ToSet(tags)| != |tags| then Outcome(up.uploaded, Some(DuplicateFolderNames))
        else
          match CheckFrom(ToSet(tags), Flatten(pages))
          case Err(e) => Outcome(up.uploaded, Some(e))
          case Ok(left) =>
            if left != {} then Outcome(up.uploaded, Some(NotReleased(left)))
            else Outcome(up.uploaded, None)
  }

  /** The folder names, in listing order. */
  function FolderNames(folders: seq<ModelFolder>): (r: seq<string>)
    ensures |r| == |folders|
    ensures forall i :: 0 <= i < |folders| ==> r[i] == folders[i].name
  {
    if |folders| == 0 then [] else [folders[0].name] + FolderNames(folders[1..])
  }

  /**
   * The script ends without error exactly when the token is there, every
   * folder is uploaded, no two folders share a name, every release is valid
   * and every folder's name is the tag of some release.
   */
  lemma ReleaseSucceeds(patFile: Json, folders: seq<ModelFolder>, refused: set<string>, pages: seq<seq<Release>>)
    ensures ReleaseOutcome(patFile, folders, refused, pages).error.None? <==>
              && PatOf(patFile).Ok?
              && (forall i :: 0 <= i < |folders| ==> Uploadable(folders[i], refused))
              && Distinct(FolderNames(folders))
              && (forall i :: 0 <= i < |Flatten(pages)| ==> ValidRelease(Flatten(pages)[i]))
              && (forall i :: 0 <= i < |folders| ==> folders[i].name in ReleasedTags(Flatten(pages)))
  {
    UploadsAll(folders, refused);
    if PatOf(patFile).Ok? && Uploads(folders, refused).error.None? {
      var tags := TagsOf(Uploads(folders, refused).uploaded);
      UploadedTags(folders, refused);
      SetSizeDetectsRepeats(tags);
      CheckFromPasses(ToSet(tags), Flatten(pages));
      if CheckFrom(ToSet(tags), Flatten(pages)).Ok? {
        CheckFromLeaves(ToSet(tags), Flatten(pages));
        AllReleasedIff(tags, ReleasedTags(Flatten(pages)));
      }
    }
  }

  /** After a complete upload loop the uploaded tags are the folder names. */
  lemma UploadedTags(folders: seq<ModelFolder>, refused: set<string>)
    requires Uploads(folders, refused).error.None?
    ensures TagsOf(Uploads(folders, refused).uploaded) == FolderNames(folders)
  {
    UploadsAll(folders, refused);
  }

  /** Nothing is left of the set of names exactly when every name is among the released tags. */
  lemma AllReleasedIff(names: seq<string>, released: set<string>)
    ensures ToSet(names) - released == {} <==> forall i :: 0 <= i < |names| ==> names[i] in released
  {
    if ToSet(names) - released != {} {
      var t :| t in ToSet(names) - released;
      var k :| 0 <= k < |names| && names[k] == t;
      assert names[k] !in released;
    } else {
      forall i | 0 <= i < |names|
        ensures names[i] in released
      {
        assert names[i] in ToSet(names);
        assert names[i] !in ToSet(names) - released;
      }
    }
  }

  /** A repeated folder name is reported only after every folder has been uploaded. */
  lemma DuplicatesAfterUpload(patFile: Json, folders: seq<ModelFolder>, refused: set<string>, pages: seq<seq<Release>>)
    requires ReleaseOutcome(patFile, folders, refused, pages).error == Some(DuplicateFolderNames)
    ensures |ReleaseOutcome(patFile, folders, refused, pages).uploaded| == |folders|
    ensures !Distinct(FolderNames(folders))
  {
    assert PatOf(patFile).Ok?;
    assert Uploads(folders, refused).error.None?;
    UploadsAll(folders, refused);
    UploadedTags(folders, refused);
    var tags := TagsOf(Uploads(folders, refused).uploaded);
    assert |ToSet(tags)| != |tags|;
    SetSizeDetectsRepeats(tags);
  }

  // ---------------------------------------------------------------------
  // The loops
  // ---------------------------------------------------------------------

  /** `for model_folder in models_folder.iterdir()`: one release per folder, appended in order. */
  method UploadModels(folders: seq<ModelFolder>, refused: set<string>) returns (o: Outcome)
    ensures o == Uploads(folders, refused)
  {
    var uploaded: seq<ReleaseRequest> := [];
    for i := 0 to |folders|
      invariant Uploads(folders[i..], refused).error == Uploads(folders, refused).error
      invariant uploaded + Uploads(folders[i..], refused).uploaded == Uploads(folders, refused).uploaded
    {
      assert folders[i..][1..] == folders[i + 1..];
      var folder := folders[i];
      if folder.readme.None? {
        return Outcome(uploaded, Some(ReadmeNotFound(folder.name)));
      }
      var request := RequestFor(folder, folder.readme.value);
      if folder.name in refused {
        return Outcome(uploaded, Some(CreateReleaseRefused(folder.name)));
      }
      assert uploaded + [request] + Uploads(folders[i + 1..], refused).uploaded
             == uploaded + Uploads(folders[i..], refused).uploaded;
      uploaded := uploaded + [request];
    }
    assert folders[|folders|..] == [];
    o := Outcome(uploaded, None);
  }

  /** The asset loop of one release, on a list of allowed names. */
  method RemoveAllowed(tagName: string, assets: seq<string>) returns (allowed: seq<string>)
    ensures allowed == Remaining(AllowedAssets(tagName), assets)
  {
    allowed := [tagName + "-py3-none-any.whl", tagName + ".tar.gz"];
    for i := 0 to |assets|
      invariant Remaining(allowed, assets[i..]) == Remaining(AllowedAssets(tagName), assets)
    {
      assert assets[i..][1..] == assets[i + 1..];
      if assets[i] in allowed {
        allowed := RemoveFirst(allowed, assets[i]);
      }
    }
    assert assets[|assets|..] == [];
  }

  /** The page loop and, inside it, the release loop, on the set of uploaded tags. */
  method CheckReleases(uploaded: set<string>, pages: seq<seq<Release>>) returns (r: Result<set<string>, ReleaseError>)
    ensures r == CheckFrom(uploaded, Flatten(pages))
  {
    var left := uploaded;
    for i := 0 to |pages|
      invariant CheckFrom(left, Flatten(pages[i..])) == CheckFrom(uploaded, Flatten(pages))
    {
      assert pages[i..][1..] == pages[i + 1..];
      var page := pages[i];
      ghost var later := Flatten(pages[i + 1..]);
      assert Flatten(pages[i..]) == page + later;
      for j := 0 to |page|
        invariant CheckFrom(left, page[j..] + later) == CheckFrom(uploaded, Flatten(pages))
      {
        assert (page[j..] + later)[1..] == page[j + 1..] + later;
        var release := page[j];
        if release.name != release.tagName {
          return Err(NameIsNotTag(release.tagName));
        }
        if |release.assets| != 2 {
          return Err(AssetCount(release.tagName, |release.assets|));
        }
        var missing := RemoveAllowed(release.tagName, release.assets);
        if missing != [] {
          return Err(MissingAssets(release.tagName, missing));
        }
        if release.tagName in left {
          left := left - {release.tagName};
        }
      }
      assert page[|page|..] + later == later;
    }
    assert pages[|pages|..] == [];
    r := Ok(left);
  }

  /** The whole script. */
  method ReleaseModels(patFile: Json, folders: seq<ModelFolder>, refused: set<string>, pages: seq<seq<Release>>)
    returns (o: Outcome)
    ensures o == ReleaseOutcome(patFile, folders, refused, pages)
  {
    var pat := PatOf(patFile);
    if pat.Err? {
      return Outcome([], Some(pat.error));
    }
    var up := UploadModels(folders, refused);
    if up.error.Some? {
      return up;
    }
    var tags := TagsOf(up.uploaded);
    var uploadedSet := ToSet(tags);
    if |uploadedSet| != |tags| {
      return Outcome(up.uploaded, Some(DuplicateFolderNames));
    }
    var left := CheckReleases(uploadedSet, pages);
    if left.Err? {
      return Outcome(up.uploaded, Some(left.error));
    }
    if left.value != {} {
      return Outcome(up.uploaded, Some(NotReleased(left.value)));
    }
    o := Outcome(up.uploaded, None);
  }
}
