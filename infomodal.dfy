/**
 * The "about" dialog (InfoModal.tsx): dotted version numbers compared component by
 * component, whether the latest release is newer than the running version, and the
 * check for the latest release: started on opening until one has finished, and again by
 * the "check for updates" button, which shows while there is neither a latest version
 * nor an error to display.
 */
module InfoModal {
  import opened Types
  import opened Text

  // ---------------------------------------------------------------------------
  // Version strings
  // ---------------------------------------------------------------------------

  /** `v.replace(/^v/, '')`: one leading `v` is dropped. */
  function StripV(v: string): (r: string)
    ensures |v| > 0 && v[0] == 'v' ==> r == v[1..]
    ensures !(|v| > 0 && v[0] == 'v') ==> r == v
  {
    if |v| > 0 && v[0] == 'v' then v[1..] else v
  }

  /** `s.split('.')`: the pieces between the dots, at least one even for the empty
      string. */
  function Split(s: string): (r: seq<string>)
    ensures |r| >= 1
    decreases |s|
  {
    if |s| == 0 then [""]
    else if s[0] == '.' then [""] + Split(s[1..])
    else
      var rest := Split(s[1..]);
      [[s[0]] + rest[0]] + rest[1..]
  }

  /** No piece holds a dot. */
  lemma {:induction false} SplitPieces(s: string)
    ensures forall i :: 0 <= i < |Split(s)| ==> '.' !in Split(s)[i]
    decreases |s|
  {
    if |s| > 0 {
      SplitPieces(s[1..]);
      if s[0] != '.' {
        var rest := Split(s[1..]);
        assert '.' !in rest[0];
        assert forall i :: 1 <= i < |Split(s)| ==> Split(s)[i] == rest[i];
      }
    }
  }

  /** One step of `Split`: a leading dot closes an empty piece. */
  lemma SplitConsDot(u: string)
    ensures Split(['.'] + u) == [""] + Split(u)
  {
    assert (['.'] + u)[0] == '.' && (['.'] + u)[1..] == u;
  }

  /** One step of `Split`: any other character opens the first piece of the rest. */
  lemma SplitConsOther(c: char, u: string)
    requires c != '.'
    ensures Split([c] + u) == [[c] + Split(u)[0]] + Split(u)[1..]
  {
    assert ([c] + u)[0] == c && ([c] + u)[1..] == u;
  }

  /** The inductive step of `SplitAtDot` for a leading dot. */
  lemma SplitStepDot(w: string, u: string, b: seq<string>)
    requires Split(w) == Split(u) + b
    ensures Split(['.'] + w) == Split(['.'] + u) + b
  {
    SplitConsDot(w);
    SplitConsDot(u);
    ConcatAssociative([""], Split(u), b);
  }

  lemma ConcatAssociative<T>(x: seq<T>, y: seq<T>, z: seq<T>)
    ensures x + (y + z) == (x + y) + z
  {
  }

  /** The inductive step of `SplitAtDot` for any other leading character. */
  lemma SplitStepOther(c: char, w: string, u: string, b: seq<string>)
    requires c != '.'
    requires Split(w) == Split(u) + b
    ensures Split([c] + w) == Split([c] + u) + b
  {
    SplitConsOther(c, w);
    SplitConsOther(c, u);
    HeadMerge([c], Split(u), b);
  }

  /** Splitting at a dot splits each side on its own. */
  lemma {:induction false} SplitAtDot(s: string, t: string)
    ensures Split(s + "." + t) == Split(s) + Split(t)
    decreases |s|
  {
    if |s| == 0 {
      assert s + "." + t == ['.'] + t;
      SplitConsDot(t);
    } else {
      SplitAtDot(s[1..], t);
      if s[0] == '.' {
        SplitStepDot(s[1..] + "." + t, s[1..], Split(t));
      } else {
        SplitStepOther(s[0], s[1..] + "." + t, s[1..], Split(t));
      }
      assert s == [s[0]] + s[1..];
      ConcatAssociative([s[0]], s[1..], ".");
      ConcatAssociative([s[0]], s[1..] + ".", t);
    }
  }

  /** Extending the first piece of `a + b` extends the first piece of `a`. */
  lemma HeadMerge(h: string, a: seq<string>, b: seq<string>)
    requires |a| >= 1
    ensures [h + (a + b)[0]] + (a + b)[1..] == ([h + a[0]] + a[1..]) + b
  {
    assert (a + b)[0] == a[0];
    assert (a + b)[1..] == a[1..] + b;
  }

  /** Splitting then joining with dots gives the text back. */
  function Join(pieces: seq<string>): string
    requires |pieces| >= 1
    decreases |pieces|
  {
    if |pieces| == 1 then pieces[0] else pieces[0] + "." + Join(pieces[1..])
  }

  lemma {:induction false} JoinSplit(s: string)
    ensures Join(Split(s)) == s
    decreases |s|
  {
    if |s| > 0 {
      JoinSplit(s[1..]);
      var rest := Split(s[1..]);
      if s[0] == '.' {
        assert Split(s)[1..] == rest;
        assert s == "." + s[1..];
      } else if |rest| == 1 {
        assert s == [s[0]] + s[1..];
      } else {
        assert Split(s)[1..] == rest[1..];
        assert s == [s[0]] + s[1..];
      }
    }
  }

  /** `Number(piece)` for the pieces this model parses: a string of decimal digits (the
      empty string gives 0) is its value; anything else is `NaN`, written `None`. */
  function NumberOf(piece: string): (r: Option<nat>)
    ensures r.Some? <==> AllDigits(piece)
    ensures piece == "" ==> r == Some(0)
  {
    if AllDigits(piece) then Some(DigitsValue(piece)) else None
  }

  /** `.map(Number)`. */
  function Numbers(pieces: seq<string>): (r: seq<Option<nat>>)
    ensures |r| == |pieces|
    ensures forall i :: 0 <= i < |r| ==> r[i] == NumberOf(pieces[i])
  {
    seq(|pieces|, i requires 0 <= i < |pieces| => NumberOf(pieces[i]))
  }

  /** `parts1` / `parts2`. */
  function Parts(v: string): seq<Option<nat>> {
    Numbers(Split(StripV(v)))
  }

  /** `parts[i] || 0`: a missing component and `NaN` both count as 0. */
  function Component(parts: seq<Option<nat>>, i: nat): nat {
    if i < |parts| && parts[i].Some? then parts[i].value else 0
  }

  function Max(a: nat, b: nat): nat {
    if a >= b then a else b
  }

  /** The comparison of the components from position `i` on: the first position where
      they differ decides, and equal components to the end give 0. */
  function CompareFrom(p1: seq<Option<nat>>, p2: seq<Option<nat>>, i: nat): (r: int)
    ensures r == -1 || r == 0 || r == 1
    decreases Max(|p1|, |p2|) - i
  {
    if i >= Max(|p1|, |p2|) then 0
    else if Component(p1, i) > Component(p2, i) then 1
    else if Component(p1, i) < Component(p2, i) then -1
    else CompareFrom(p1, p2, i + 1)
  }

  /** `compareVersions(v1, v2)` as a value. */
  function Compare(v1: string, v2: string): (r: int)
    ensures r == -1 || r == 0 || r == 1
  {
    CompareFrom(Parts(v1), Parts(v2), 0)
  }

  /** `compareVersions`: the indexed loop over the longer list, returning at the first
      difference. */
  method CompareVersions(v1: string, v2: string) returns (r: int)
    ensures r == Compare(v1, v2)
  {
    var parts1 := Parts(v1);
    var parts2 := Parts(v2);
    var n := Max(|parts1|, |parts2|);
    var i := 0;
    while i < n
      invariant 0 <= i <= n
      invariant CompareFrom(parts1, parts2, 0) == CompareFrom(parts1, parts2, i)
      decreases n - i
    {
      var p1 := Component(parts1, i);
      var p2 := Component(parts2, i);
      if p1 > p2 {
        return 1;
      }
      if p1 < p2 {
        return -1;
      }
      i := i + 1;
    }
    return 0;
  }

  // ---------------------------------------------------------------------------
  // Properties of the comparison
  // ---------------------------------------------------------------------------

  lemma {:induction false} CompareFromSelf(p: seq<Option<nat>>, i: nat)
    ensures CompareFrom(p, p, i) == 0
    decreases |p| - i
  {
    if i < |p| {
      CompareFromSelf(p, i + 1);
    }
  }

  /** Every version equals itself. */
  lemma CompareReflexive(v: string)
    ensures Compare(v, v) == 0
  {
    CompareFromSelf(Parts(v), 0);
  }

  lemma {:induction false} CompareFromSwap(p1: seq<Option<nat>>, p2: seq<Option<nat>>, i: nat)
    ensures CompareFrom(p1, p2, i) == -CompareFrom(p2, p1, i)
    decreases Max(|p1|, |p2|) - i
  {
    if i < Max(|p1|, |p2|) && Component(p1, i) == Component(p2, i) {
      CompareFromSwap(p1, p2, i + 1);
    }
  }

  /** Swapping the arguments negates the result. */
  lemma CompareAntisymmetric(v1: string, v2: string)
    ensures Compare(v1, v2) == -Compare(v2, v1)
  {
    CompareFromSwap(Parts(v1), Parts(v2), 0);
  }

  lemma {:induction false} CompareFromTransitive(a: seq<Option<nat>>, b: seq<Option<nat>>, c: seq<Option<nat>>, i: nat)
    requires CompareFrom(a, b, i) == 1 && CompareFrom(b, c, i) == 1
    ensures CompareFrom(a, c, i) == 1
    decreases Max(Max(|a|, |b|), |c|) - i
  {
    if Component(a, i) == Component(b, i) && Component(b, i) == Component(c, i) {
      CompareFromTransitive(a, b, c, i + 1);
    }
  }

  /** Newer-than is transitive. */
  lemma CompareTransitive(v1: string, v2: string, v3: string)
    requires Compare(v1, v2) == 1 && Compare(v2, v3) == 1
    ensures Compare(v1, v3) == 1
  {
    CompareFromTransitive(Parts(v1), Parts(v2), Parts(v3), 0);
  }

  lemma {:induction false} CompareFromZeroIff(p1: seq<Option<nat>>, p2: seq<Option<nat>>, i: nat)
    ensures CompareFrom(p1, p2, i) == 0 <==> forall j :: i <= j ==> Component(p1, j) == Component(p2, j)
    decreases Max(|p1|, |p2|) - i
  {
    if i < Max(|p1|, |p2|) && Component(p1, i) == Component(p2, i) {
      CompareFromZeroIff(p1, p2, i + 1);
    }
  }

  /** Two versions compare equal exactly when every component agrees, a missing or
      non-numeric component counting as 0. */
  lemma CompareZeroIff(v1: string, v2: string)
    ensures Compare(v1, v2) == 0 <==> forall j: nat :: Component(Parts(v1), j) == Component(Parts(v2), j)
  {
    CompareFromZeroIff(Parts(v1), Parts(v2), 0);
  }

  lemma {:induction false} SkipEqualComponents(p1: seq<Option<nat>>, p2: seq<Option<nat>>, i: nat, k: nat)
    requires i <= k
    requires forall j :: i <= j < k ==> Component(p1, j) == Component(p2, j)
    ensures CompareFrom(p1, p2, i) == CompareFrom(p1, p2, k)
    decreases k - i
  {
    if i < k {
      SkipEqualComponents(p1, p2, i + 1, k);
    }
  }

  /** The first component where the versions differ decides: the greater one there is
      the greater version. */
  lemma FirstDifferenceDecides(v1: string, v2: string, k: nat)
    requires forall j :: 0 <= j < k ==> Component(Parts(v1), j) == Component(Parts(v2), j)
    requires Component(Parts(v1), k) > Component(Parts(v2), k)
    ensures Compare(v1, v2) == 1 && Compare(v2, v1) == -1
  {
    SkipEqualComponents(Parts(v1), Parts(v2), 0, k);
    CompareFromSwap(Parts(v1), Parts(v2), 0);
  }

  /** A leading `v` is ignored, once. */
  lemma LeadingVIgnored(v1: string, v2: string)
    requires !(|v1| > 0 && v1[0] == 'v')
    ensures Compare("v" + v1, v2) == Compare(v1, v2)
    ensures Compare(v2, "v" + v1) == Compare(v2, v1)
  {
    assert StripV("v" + v1) == v1;
  }

  /** A trailing `.0` changes nothing: "1.2" and "1.2.0" are the same version. */
  lemma TrailingZeroIgnored(v: string)
    ensures Compare(v + ".0", v) == 0
  {
    var s := StripV(v);
    assert StripV(v + ".0") == s + ".0" by {
      if |v| > 0 && v[0] == 'v' {
        assert (v + ".0")[1..] == v[1..] + ".0";
      }
    }
    SplitAtDot(s, "0");
    assert s + "." + "0" == s + ".0";
    assert "0"[1..] == "" && Split("") == [""];
    assert ["0"[0]] + Split("0"[1..])[0] == "0";
    assert Split("0") == ["0"];
    assert AllDigits("0") && DigitsValue("0") == 0;
    var p := Parts(v);
    var q := Parts(v + ".0");
    assert Split(StripV(v + ".0")) == Split(s) + ["0"];
    assert q == p + [Some(0)] by {
      assert |q| == |p| + 1;
      forall j | 0 <= j < |q| ensures q[j] == (p + [Some(0)])[j] {
        if j < |p| {
          assert Split(StripV(v + ".0"))[j] == Split(s)[j];
        }
      }
    }
    forall j: nat ensures Component(q, j) == Component(p, j) {
      if j < |p| {
        assert q[j] == p[j];
      }
    }
    CompareZeroIff(v + ".0", v);
  }

  // ---------------------------------------------------------------------------
  // The dialog
  // ---------------------------------------------------------------------------

  /** The fields of a GitHub release the dialog uses. */
  datatype Release = Release(tagName: string, htmlUrl: string)

  /** How the release request ended: a release, a response that was not `ok`, or a
      thrown value (an `Error` with its message, or anything else). */
  datatype CheckOutcome = Received(release: Release) | NotOk | Threw(message: Option<string>)

  const NOT_OK_MESSAGE := "Не удалось получить информацию о последней версии"
  const CHECK_FAILED_MESSAGE := "Ошибка при проверке обновлений"

  /** `latestRelease?.tag_name || null`. */
  function LatestVersion(latest: Option<Release>): (r: Option<string>)
    ensures r.Some? <==> latest.Some? && latest.value.tagName != ""
    ensures r.Some? ==> r.value == latest.value.tagName
  {
    if latest.Some? && latest.value.tagName != "" then Some(latest.value.tagName) else None
  }

  /** `latestVersion && compareVersions(latestVersion, currentVersion) > 0`. */
  predicate UpdateAvailable(latest: Option<Release>, currentVersion: string) {
    var tag := LatestVersion(latest);
    tag.Some? && Compare(tag.value, currentVersion) > 0
  }

  /** No update is offered for the running version itself, or for a release tagged with
      it plus a leading `v`. */
  lemma SameVersionNoUpdate(url: string, currentVersion: string)
    requires !(|currentVersion| > 0 && currentVersion[0] == 'v')
    ensures !UpdateAvailable(Some(Release(currentVersion, url)), currentVersion)
    ensures !UpdateAvailable(Some(Release("v" + currentVersion, url)), currentVersion)
  {
    CompareReflexive(currentVersion);
    LeadingVIgnored(currentVersion, currentVersion);
  }

  /** The dialog's state. */
  class InfoModalState {
    var latestRelease: Option<Release>
    var isLoading: bool
    var error: Option<string>
    var hasChecked: bool

    constructor ()
      ensures latestRelease == None && !isLoading && error == None && !hasChecked
    {
      latestRelease := None;
      isLoading := false;
      error := None;
      hasChecked := false;
    }

    /** `checkForUpdates` up to the `await`: loading starts and the error is cleared. */
    method StartCheck()
      modifies this
      ensures isLoading && error == None
      ensures latestRelease == old(latestRelease) && hasChecked == old(hasChecked)
    {
      isLoading := true;
      error := None;
    }

    /** The effect: while the dialog is open and no check has finished yet, a check
        starts. */
    method Effect(isOpen: bool) returns (started: bool)
      modifies this
      ensures started <==> isOpen && !old(hasChecked)
      ensures started ==> isLoading && error == None
      ensures !started ==> isLoading == old(isLoading) && error == old(error)
      ensures latestRelease == old(latestRelease) && hasChecked == old(hasChecked)
    {
      started := false;
      if isOpen && !hasChecked {
        StartCheck();
        started := true;
      }
    }

    /** The rest of `checkForUpdates`: a release is kept; a failure keeps the error's
        message (the fixed texts for a response that was not `ok` and for a thrown
        non-`Error`); either way the check counts as done and loading ends. */
    method FinishCheck(outcome: CheckOutcome)
      modifies this
      ensures outcome.Received? ==> latestRelease == Some(outcome.release) && error == old(error)
      ensures outcome.NotOk? ==> latestRelease == old(latestRelease) && error == Some(NOT_OK_MESSAGE)
      ensures outcome.Threw? ==> (latestRelease == old(latestRelease)
                                  && error == Some(outcome.message.GetOr(CHECK_FAILED_MESSAGE)))
      ensures hasChecked && !isLoading
    {
      match outcome {
        case Received(release) =>
          latestRelease := Some(release);
        case NotOk =>
          error := Some(NOT_OK_MESSAGE);
        case Threw(message) =>
          error := Some(if message.Some? then message.value else CHECK_FAILED_MESSAGE);
      }
      hasChecked := true;
      isLoading := false;
    }

    /** `!isLoading && !latestVersion && !error`: the "check for updates" button shows. */
    predicate CheckButtonShown()
      reads this
    {
      !isLoading && LatestVersion(latestRelease).None? && !Truthy(error)
    }

    /** The button's `onClick={checkForUpdates}`, which ignores `hasChecked`. */
    method ManualCheck()
      requires CheckButtonShown()
      modifies this
      ensures isLoading && error == None
      ensures latestRelease == old(latestRelease) && hasChecked == old(hasChecked)
    {
      StartCheck();
    }

    /** `isUpdateAvailable` for the current state. */
    predicate IsUpdateAvailable(currentVersion: string)
      reads this
    {
      UpdateAvailable(latestRelease, currentVersion)
    }
  }

  /** Once a check has finished, opening the dialog again starts no other check. */
  method ReopenAfterCheck(m: InfoModalState, outcome: CheckOutcome) returns (first: bool, second: bool)
    requires !m.hasChecked
    modifies m
    ensures first && !second && m.hasChecked && !m.isLoading
  {
    first := m.Effect(true);
    m.FinishCheck(outcome);
    second := m.Effect(true);
  }

  /** After the first check of a fresh dialog, the button offers a second check exactly
      when the release came back with an empty tag or the request threw an `Error` with an
      empty message; pressing it then starts that check although one has finished. */
  method RecheckByButton(m: InfoModalState, outcome: CheckOutcome) returns (shown: bool)
    requires !m.hasChecked && m.latestRelease == None
    modifies m
    ensures shown <==> (outcome.Received? && outcome.release.tagName == "") || outcome == Threw(Some(""))
    ensures m.hasChecked
    ensures shown ==> m.isLoading && m.error == None
  {
    var first := m.Effect(true);
    m.FinishCheck(outcome);
    shown := m.CheckButtonShown();
    if shown {
      m.ManualCheck();
    }
  }
}
