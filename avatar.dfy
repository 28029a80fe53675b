/**
 * The avatar-URL convention shared by the user and pet models: avatar paths
 * are stored relative to the backend's base URL `apiBack` and handed out as
 * absolute URLs. Reading prefixes `apiBack + "/"` to a stored relative path;
 * writing removes the first occurrence of `apiBack + "/"` from a given string.
 */
module Avatar {
  import opened Wrappers
  import opened JsString
  import opened JsValues

  /** The URL already names its scheme: `http://…` or `https://…`. */
  predicate IsAbsolute(url: string) {
    StartsWith(url, "http://") || StartsWith(url, "https://")
  }

  /** The read-side guard: a non-empty string without an http or https scheme. */
  predicate IsRelativePath(url: string) {
    url != "" && !IsAbsolute(url)
  }

  /** The text `${API_BACK}/` that is put in front on reading and removed on writing. */
  function BasePrefix(apiBack: string): string {
    apiBack + "/"
  }

  /** Read side: the avatar URL handed to callers for a stored one. */
  function Absolutize(apiBack: string, stored: Option<string>): Option<string> {
    match stored
    case Some(url) => if IsRelativePath(url) then Some(BasePrefix(apiBack) + url) else stored
    case None => None
  }

  /**
   * Write side: a string has the first occurrence of `apiBack + "/"` removed,
   * wherever it stands; any other value is stored as given.
   */
  function Relativize(apiBack: string, given: Value): (stored: Value)
    ensures stored.Str? <==> given.Str?
    ensures !given.Str? ==> stored == given
    ensures given.Str? && (forall j: nat :: !OccursAt(given.s, BasePrefix(apiBack), j)) ==> stored == given
    ensures given.Str? ==> forall i: nat :: FirstOccurrence(given.s, BasePrefix(apiBack), i) ==>
      stored.s == given.s[..i] + given.s[i + |apiBack| + 1..]
  {
    match given
    case Str(url) => Str(RemoveFirst(url, BasePrefix(apiBack)))
    case _ => given
  }

  /** A stored relative path is served as `apiBack + "/" + path`. */
  lemma ServesRelativeUnderBase(apiBack: string, path: string)
    requires IsRelativePath(path)
    ensures Absolutize(apiBack, Some(path)) == Some(apiBack + "/" + path)
  {
  }

  /** A missing, empty or already absolute avatar is served as stored. */
  lemma ServesOthersUnchanged(apiBack: string, stored: Option<string>)
    requires stored.None? || stored.value == "" || IsAbsolute(stored.value)
    ensures Absolutize(apiBack, stored) == stored
  {
  }

  /** Proof helper: a prefix of a string is a prefix of every extension of it. */
  lemma StartsWithExtends(s: string, prefix: string, tail: string)
    requires StartsWith(s, prefix)
    ensures StartsWith(s + tail, prefix)
  {
    assert (s + tail)[..|prefix|] == s[..|prefix|];
  }

  /** With an absolute base URL, whatever is served is missing, empty or absolute. */
  lemma ServedIsAbsolute(apiBack: string, stored: Option<string>)
    requires IsAbsolute(apiBack)
    ensures Absolutize(apiBack, stored).None? || Absolutize(apiBack, stored).value == ""
      || IsAbsolute(Absolutize(apiBack, stored).value)
  {
    if stored.Some? && IsRelativePath(stored.value) {
      assert BasePrefix(apiBack) + stored.value == apiBack + ("/" + stored.value);
      if StartsWith(apiBack, "http://") {
        StartsWithExtends(apiBack, "http://", "/" + stored.value);
      } else {
        StartsWithExtends(apiBack, "https://", "/" + stored.value);
      }
    }
  }

  /** With an absolute base URL, serving a served URL again changes nothing. */
  lemma AbsolutizeIdempotent(apiBack: string, stored: Option<string>)
    requires IsAbsolute(apiBack)
    ensures Absolutize(apiBack, Absolutize(apiBack, stored)) == Absolutize(apiBack, stored)
  {
    ServedIsAbsolute(apiBack, stored);
  }

  /** Writing undoes reading: removing the base from `apiBack + "/" + p` gives back `p`, for every `p`. */
  lemma StripInvertsPrefix(apiBack: string, path: string)
    ensures Relativize(apiBack, Str(apiBack + "/" + path)) == Str(path)
  {
    RemoveFirstLeading(BasePrefix(apiBack), path);
    assert BasePrefix(apiBack) + path == apiBack + "/" + path;
  }

  /**
   * A served URL sent back and read again is served unchanged when it is stored
   * relative, empty, free of `apiBack + "/"`, or is `apiBack + "/"` followed by
   * a relative path. Other absolute URLs that contain the base are not covered.
   */
  lemma ServedUrlSurvivesWriteBack(apiBack: string, path: string)
    requires IsRelativePath(path) || path == "" || (forall j: nat :: !OccursAt(path, BasePrefix(apiBack), j))
      || (StartsWith(path, BasePrefix(apiBack)) && IsRelativePath(path[|apiBack| + 1..]))
    ensures
      var served := Absolutize(apiBack, Some(path)).value;
      Absolutize(apiBack, Some(Relativize(apiBack, Str(served)).s)) == Some(served)
  {
    if IsRelativePath(path) {
      StripInvertsPrefix(apiBack, path);
    } else if path == "" {
      assert !OccursAt("", BasePrefix(apiBack), 0);
    } else if StartsWith(path, BasePrefix(apiBack)) && IsRelativePath(path[|apiBack| + 1..]) {
      var rest := path[|apiBack| + 1..];
      assert apiBack + "/" + rest == path;
      StripInvertsPrefix(apiBack, rest);
    }
  }

  /** The reading of the write side as "strip the prefix if present". */
  function PrefixStrip(apiBack: string, url: string): string {
    if StartsWith(url, BasePrefix(apiBack)) then url[|apiBack| + 1..] else url
  }

  /**
   * The write side agrees with stripping a leading `apiBack + "/"` exactly
   * when the string starts with it or does not contain it at all.
   */
  lemma StripMatchesPrefixStripIff(apiBack: string, url: string)
    ensures Relativize(apiBack, Str(url)) == Str(PrefixStrip(apiBack, url))
      <==> StartsWith(url, BasePrefix(apiBack)) || forall j: nat :: !OccursAt(url, BasePrefix(apiBack), j)
  {
    var pat := BasePrefix(apiBack);
    if StartsWith(url, pat) {
      assert FirstOccurrence(url, pat, 0);
    } else {
      match IndexOf(url, pat)
      case None =>
      case Some(i) =>
        RemoveFirstShortens(url, pat, i);
    }
  }
}
