/**
 * The input checks of `processOptions`: the URL field is trimmed, then four
 * checks run in a fixed order and the first that fails decides the message.
 */
module Validation {
  import opened Wrappers
  import opened JsStrings
  import opened AssetTypes

  /** The substring a URL must contain to be accepted. */
  const RobloxHost := "roblox.com"

  const MissingBoth := "Please enter an asset URL and select an asset type."
  const MissingUrl := "Please enter an asset URL."
  const MissingType := "Please select an asset type."
  const NotRobloxUrl := "Please enter a valid roblox.com URL."

  /**
   * Checks the raw URL field and the selected type. On success the result is
   * the trimmed URL, which the rest of the flow works with.
   */
  function Validate(rawUrl: string, kind: AssetKind): (r: Result<string, string>)
    ensures r.Ok? <==> !Blank(rawUrl) && !kind.Placeholder? && Contains(Trim(rawUrl), RobloxHost)
    ensures r.Ok? ==> r.value == Trim(rawUrl) && r.value != []
  {
    var url := Trim(rawUrl);
    if url == [] && kind.Placeholder? then Err(MissingBoth)
    else if url == [] then Err(MissingUrl)
    else if kind.Placeholder? then Err(MissingType)
    else if !Contains(url, RobloxHost) then Err(NotRobloxUrl)
    else Ok(url)
  }

  /**
   * The message of each failed check, in the order the checks run: the
   * combined message when both fields are missing, then the missing URL,
   * then the unselected type, then the missing `roblox.com`.
   */
  lemma ValidationOrder(rawUrl: string, kind: AssetKind)
    ensures Blank(rawUrl) && kind.Placeholder? ==> Validate(rawUrl, kind) == Err(MissingBoth)
    ensures Blank(rawUrl) && !kind.Placeholder? ==> Validate(rawUrl, kind) == Err(MissingUrl)
    ensures !Blank(rawUrl) && kind.Placeholder? ==> Validate(rawUrl, kind) == Err(MissingType)
    ensures !Blank(rawUrl) && !kind.Placeholder? && !Contains(Trim(rawUrl), RobloxHost)
      ==> Validate(rawUrl, kind) == Err(NotRobloxUrl)
  {
  }

  /**
   * A URL field holding only whitespace (spaces, tabs, line breaks, ...)
   * is treated exactly like an empty one.
   */
  lemma BlankUrlIsMissing(rawUrl: string, kind: AssetKind)
    requires Blank(rawUrl)
    ensures Validate(rawUrl, kind) == Validate("", kind)
    ensures Validate(rawUrl, kind).Err?
  {
  }

  /** Whitespace around an accepted URL is dropped before it is used. */
  lemma SurroundingWhitespaceIgnored(pad1: string, url: string, pad2: string, kind: AssetKind)
    requires Blank(pad1) && Blank(pad2)
    requires Validate(url, kind).Ok?
    ensures Validate(pad1 + url + pad2, kind) == Validate(url, kind)
  {
    PaddedTrim(pad1, url, pad2);
  }

  /** Blank padding on either side does not change what a non-blank string trims to. */
  lemma PaddedTrim(pad1: string, url: string, pad2: string)
    requires Blank(pad1) && Blank(pad2) && !Blank(url)
    ensures Trim(pad1 + url + pad2) == Trim(url)
  {
    var t := Trim(url);
    TrimCore(url);
    var i :| 0 <= i <= |url| - |t| && t == url[i..i + |t|] && BlankRange(url, 0, i) && BlankRange(url, i + |t|, |url|);
    PaddingKeepsCore(pad1, url, pad2, i, t);
  }

  /** A core with blank surroundings keeps them, and its trim, once padded with more blanks. */
  lemma PaddingKeepsCore(pad1: string, url: string, pad2: string, i: nat, t: string)
    requires i + |t| <= |url| && url[i..i + |t|] == t
    requires t != [] && !IsJsWhitespace(t[0]) && !IsJsWhitespace(t[|t| - 1])
    requires Blank(pad1) && Blank(pad2) && BlankRange(url, 0, i) && BlankRange(url, i + |t|, |url|)
    ensures Trim(pad1 + url + pad2) == t
  {
    var s := pad1 + url + pad2;
    var p := |pad1| + i;
    forall k | p <= k < p + |t| ensures s[k] == t[k - p] {
      assert s[k] == url[k - |pad1|];
    }
    assert s[p..p + |t|] == t;
    forall k | 0 <= k < p ensures IsJsWhitespace(s[k]) {
      if k < |pad1| { assert s[k] == pad1[k]; } else { assert s[k] == url[k - |pad1|]; }
    }
    forall k | p + |t| <= k < |s| ensures IsJsWhitespace(s[k]) {
      if k < |pad1| + |url| { assert s[k] == url[k - |pad1|]; } else { assert s[k] == pad2[k - |pad1| - |url|]; }
    }
    TrimOfPadded(s, p, t);
  }

  /** A string that is `t` with blank padding on both sides trims to `t`. */
  lemma TrimOfPadded(s: string, i: nat, t: string)
    requires i + |t| <= |s| && s[i..i + |t|] == t
    requires BlankRange(s, 0, i) && BlankRange(s, i + |t|, |s|)
    requires t != [] && !IsJsWhitespace(t[0]) && !IsJsWhitespace(t[|t| - 1])
    ensures Trim(s) == t
  {
    var r := Trim(s);
    TrimCore(s);
    var j :| 0 <= j <= |s| - |r| && r == s[j..j + |r|] && BlankRange(s, 0, j) && BlankRange(s, j + |r|, |s|);
    assert s[i] == t[0];
    assert s[i + |t| - 1] == t[|t| - 1];
    assert r != [] by {
      assert !Blank(s) by { assert !IsJsWhitespace(s[i]); }
    }
    assert s[j] == r[0];
    assert s[j + |r| - 1] == r[|r| - 1];
  }
}
