/**
 * Model of `load_from_urdf_or_sdf` in the pybullet IIWA simulation script:
 * the dispatch on the file extension and the rewriting of `package://<name>/`
 * references into absolute paths by a package map.
 *
 * The package map's `resolveFilename`, `os.path.expandvars` and reading the
 * file are calls into code outside the model; they are passed in as functions.
 * The pybullet load calls are represented by the request the function would
 * hand to pybullet.
 */
module UrdfLoader {
  import opened Wrappers

  /** The literal part of the regular expression `package:\/\/[^\/]*\/`. */
  const PackagePrefix: string := "package://"

  /** The file the resolved URDF text is written to before it is loaded. */
  const ResolvedUrdfPath: string := "/tmp/resolved_urdf.urdf"

  /** The first index at or after `from` that holds a `/`, if any. */
  function SlashFrom(text: string, from: nat): (r: Option<nat>)
    requires from <= |text|
    ensures r.Some? ==> from <= r.value < |text| && text[r.value] == '/'
    ensures r.Some? ==> forall j :: from <= j < r.value ==> text[j] != '/'
    ensures r.None? ==> forall j :: from <= j < |text| ==> text[j] != '/'
    decreases |text| - from
  {
    if from == |text| then None
    else if text[from] == '/' then Some(from)
    else SlashFrom(text, from + 1)
  }

  /**
   * The end of the match of `package:\/\/[^\/]*\/` that starts exactly at
   * `p`, if one does: the prefix, then every non-slash character, then a slash.
   */
  function MatchAt(text: string, p: nat): (r: Option<nat>)
    requires p <= |text|
    ensures r.Some? ==> p + |PackagePrefix| < r.value <= |text|
    ensures r.Some? ==> text[p..p + |PackagePrefix|] == PackagePrefix && text[r.value - 1] == '/'
    ensures r.Some? ==> forall j :: p + |PackagePrefix| <= j < r.value - 1 ==> text[j] != '/'
    ensures r.None? ==>
      p + |PackagePrefix| > |text| || text[p..p + |PackagePrefix|] != PackagePrefix ||
      forall j :: p + |PackagePrefix| <= j < |text| ==> text[j] != '/'
  {
    if p + |PackagePrefix| <= |text| && text[p..p + |PackagePrefix|] == PackagePrefix then
      match SlashFrom(text, p + |PackagePrefix|)
      case Some(k) => Some(k + 1)
      case None => None
    else None
  }

  /**
   * The leftmost match starting at or after `from`, as `(start, end)`: the
   * next item `re.finditer` yields once the previous match ended at `from`.
   */
  function NextMatch(text: string, from: nat): (r: Option<(nat, nat)>)
    requires from <= |text|
    ensures r.Some? ==> from <= r.value.0 < r.value.1 <= |text| && MatchAt(text, r.value.0) == Some(r.value.1)
    ensures r.Some? ==> forall j :: from <= j < r.value.0 ==> MatchAt(text, j).None?
    ensures r.None? ==> forall j :: from <= j <= |text| ==> MatchAt(text, j).None?
    decreases |text| - from
  {
    if from == |text| then None
    else
      match MatchAt(text, from)
      case Some(e) => Some((from, e))
      case None => NextMatch(text, from + 1)
  }

  /** Python's `text[from:-1]`: from `from` up to, but excluding, the last character. */
  function SliceToLast(text: string, from: nat): (r: string)
    requires from <= |text|
    ensures |text| > from ==> r == text[from..|text| - 1]
    ensures |text| == from ==> r == []
  {
    text[from..Max(from, |text| - 1)]
  }

  /**
   * What the rewrite loop writes once the previous match ended at `from`:
   * the text up to the next match, the match as resolved by the package map,
   * and the rest rewritten in the same way; after the last match, the tail
   * up to the final character.
   */
  function Rewritten(text: string, from: nat, resolve: string -> string): string
    requires from <= |text|
    decreases |text| - from
  {
    match NextMatch(text, from)
    case Some((s, e)) => text[from..s] + resolve(text[s..e]) + Rewritten(text, e, resolve)
    case None => SliceToLast(text, from)
  }

  /** Text without any package reference comes out with only its final character removed. */
  lemma {:induction false} RewriteWithoutPackageUrls(text: string, from: nat, resolve: string -> string)
    requires from <= |text|
    requires forall j :: from <= j <= |text| ==> MatchAt(text, j).None?
    ensures Rewritten(text, from, resolve) == SliceToLast(text, from)
    decreases |text| - from
  {
    if from < |text| {
      assert MatchAt(text, from).None?;
      RewriteWithoutPackageUrls(text, from + 1, resolve);
      NextMatchSkips(text, from);
    }
  }

  /** Past a position with no match, the next match is the one found one position later. */
  lemma NextMatchSkips(text: string, from: nat)
    requires from < |text| && MatchAt(text, from).None?
    ensures NextMatch(text, from) == NextMatch(text, from + 1)
  {
  }

  /**
   * With a resolver that maps every reference to itself, the rewrite gives
   * back the input in order and unchanged, except that at most the final
   * character is lost.
   */
  lemma RewriteIdentityCopies(text: string, from: nat, resolve: string -> string)
    requires from <= |text|
    requires forall u :: resolve(u) == u
    ensures |text| - from - 1 <= |Rewritten(text, from, resolve)| <= |text| - from
    ensures Rewritten(text, from, resolve) == text[from..from + |Rewritten(text, from, resolve)|]
  {
    RewriteAsWrittenIsPrefix(text, from, resolve);
    RewriteWholeIdentity(text, from, resolve);
    var r := Rewritten(text, from, resolve);
    if r != text[from..] {
      assert r + [text[|text| - 1]] == text[from..];
      assert r == text[from..][..|r|];
    }
  }

  /**
   * When the input does not end in `/`, no match covers its final character,
   * so that character is always dropped from the output.
   */
  lemma RewriteDropsFinalChar(text: string, from: nat, resolve: string -> string)
    requires from < |text| && text[|text| - 1] != '/'
    requires forall u :: resolve(u) == u
    ensures Rewritten(text, from, resolve) == text[from..|text| - 1]
  {
    RewriteAsWrittenLosesLastChar(text, from, resolve);
    RewriteWholeIdentity(text, from, resolve);
    var r := Rewritten(text, from, resolve);
    assert r + [text[|text| - 1]] == text[from..];
    assert r == text[from..][..|r|];
  }

  /** Whatever the package map, the text `</robot>` loses its `>`: it no longer parses as XML. */
  lemma RewriteTruncatesClosingTag(resolve: string -> string)
    ensures Rewritten("</robot>", 0, resolve) == "</robot"
  {
    var text := "</robot>";
    forall j | 0 <= j <= |text|
      ensures MatchAt(text, j).None?
    {
      assert j + |PackagePrefix| > |text|;
    }
    RewriteWithoutPackageUrls(text, 0, resolve);
  }

  /**
   * The rewrite as evidently intended: like `Rewritten`, but after the last
   * match the whole rest of the text is copied, `text[curr_ind:]`.
   */
  function RewrittenWhole(text: string, from: nat, resolve: string -> string): string
    requires from <= |text|
    decreases |text| - from
  {
    match NextMatch(text, from)
    case Some((s, e)) => text[from..s] + resolve(text[s..e]) + RewrittenWhole(text, e, resolve)
    case None => text[from..]
  }

  /** With a resolver that maps every reference to itself, the intended rewrite gives back the input. */
  lemma {:induction false} RewriteWholeIdentity(text: string, from: nat, resolve: string -> string)
    requires from <= |text|
    requires forall u :: resolve(u) == u
    ensures RewrittenWhole(text, from, resolve) == text[from..]
    decreases |text| - from
  {
    match NextMatch(text, from)
    case Some((s, e)) =>
      assert resolve(text[s..e]) == text[s..e];
      RewriteWholeIdentity(text, e, resolve);
      SliceJoin(text, from, s, e);
      SliceJoin(text, from, e, |text|);
    case None =>
  }

  /**
   * Whatever the resolver, when the input does not end in `/` the rewrite as
   * written is the intended one without its final character.
   */
  lemma {:induction false} RewriteAsWrittenLosesLastChar(text: string, from: nat, resolve: string -> string)
    requires from < |text| && text[|text| - 1] != '/'
    ensures RewrittenWhole(text, from, resolve) == Rewritten(text, from, resolve) + [text[|text| - 1]]
    decreases |text| - from
  {
    match NextMatch(text, from)
    case Some((s, e)) =>
      assert e < |text|;
      RewriteAsWrittenLosesLastChar(text, e, resolve);
      var head := text[from..s] + resolve(text[s..e]);
      assert RewrittenWhole(text, from, resolve) == head + RewrittenWhole(text, e, resolve);
      assert Rewritten(text, from, resolve) == head + Rewritten(text, e, resolve);
    case None =>
      assert text[from..] == text[from..|text| - 1] + [text[|text| - 1]];
  }

  /**
   * Whatever the resolver, the rewrite as written is the intended one, or
   * the intended one without the input's final character.
   */
  lemma {:induction false} RewriteAsWrittenIsPrefix(text: string, from: nat, resolve: string -> string)
    requires from <= |text|
    ensures Rewritten(text, from, resolve) == RewrittenWhole(text, from, resolve) ||
      (from < |text| && Rewritten(text, from, resolve) + [text[|text| - 1]] == RewrittenWhole(text, from, resolve))
    decreases |text| - from
  {
    match NextMatch(text, from)
    case Some((s, e)) =>
      RewriteAsWrittenIsPrefix(text, e, resolve);
      var head := text[from..s] + resolve(text[s..e]);
      assert RewrittenWhole(text, from, resolve) == head + RewrittenWhole(text, e, resolve);
      assert Rewritten(text, from, resolve) == head + Rewritten(text, e, resolve);
    case None =>
      if from < |text| {
        assert text[from..] == text[from..|text| - 1] + [text[|text| - 1]];
      }
  }

  /** One unfolding of the rewrite as written at a match. */
  lemma RewrittenStep(text: string, from: nat, resolve: string -> string, s: nat, e: nat)
    requires from <= |text| && NextMatch(text, from) == Some((s, e))
    ensures from <= s <= e <= |text|
    ensures Rewritten(text, from, resolve) == (text[from..s] + resolve(text[s..e])) + Rewritten(text, e, resolve)
  {
  }

  /** Adjacent slices of one string join into the slice that spans both. */
  lemma SliceJoin(text: string, a: nat, b: nat, c: nat)
    requires a <= b <= c <= |text|
    ensures text[a..b] + text[b..c] == text[a..c]
  {
    assert forall k :: 0 <= k < c - a ==> (text[a..b] + text[b..c])[k] == text[a..c][k];
  }

  /**
   * The loop over `re.finditer` matches: copy the text before each match,
   * write the resolved match, continue after it, and finally copy the rest
   * of the text up to, but excluding, its final character
   * (`full_text[curr_ind:-1]`). The result is the intended rewrite, or the
   * intended rewrite without the input's final character.
   */
  method ResolvePackageUrls(text: string, resolve: string -> string) returns (out: string)
    ensures out == Rewritten(text, 0, resolve)
    ensures out == RewrittenWhole(text, 0, resolve) ||
      (|text| > 0 && out + [text[|text| - 1]] == RewrittenWhole(text, 0, resolve))
  {
    out := [];
    var curr: nat := 0;
    var m := NextMatch(text, 0);
    while m.Some?
      invariant curr <= |text| && m == NextMatch(text, curr)
      invariant out + Rewritten(text, curr, resolve) == Rewritten(text, 0, resolve)
      decreases |text| - curr
    {
      var (s, e) := m.value;
      var piece := text[curr..s] + resolve(text[s..e]);
      RewrittenStep(text, curr, resolve, s, e);
      assert (out + piece) + Rewritten(text, e, resolve) == out + (piece + Rewritten(text, e, resolve));
      out := out + piece;
      curr := e;
      m := NextMatch(text, curr);
    }
    out := out + SliceToLast(text, curr);
    RewriteAsWrittenIsPrefix(text, 0, resolve);
  }

  /** Python's `full_path.split(".")[-1]`: the part after the last dot, or the whole path. */
  function Extension(path: string): (ext: string)
    ensures |ext| <= |path| && ext == path[|path| - |ext|..]
    ensures forall j :: 0 <= j < |ext| ==> ext[j] != '.'
    ensures |ext| < |path| ==> path[|path| - |ext| - 1] == '.'
  {
    if path == [] then []
    else if path[|path| - 1] == '.' then []
    else Extension(path[..|path| - 1]) + [path[|path| - 1]]
  }

  /** What `load_from_urdf_or_sdf` asks pybullet to do. */
  datatype LoadRequest =
    | LoadUrdf(path: string, position: seq<real>, quaternion: seq<real>, fixed: bool,
               resolvedText: Option<string>)
    | LoadSdf(path: string)
    | UnknownExtension(path: string, ext: string)

  /**
   * The extension dispatch. A URDF loaded with a package map is first
   * rewritten; the rewritten text (written to `ResolvedUrdfPath`) is carried
   * in the request. An unknown extension ends the program (`exit(-1)`).
   */
  method LoadFromUrdfOrSdf(inpPath: string, expandVars: string -> string, readFile: string -> string,
                           position: seq<real>, quaternion: seq<real>, fixed: bool,
                           packageMap: Option<string -> string>)
    returns (r: LoadRequest)
    ensures Extension(expandVars(inpPath)) == "urdf" && packageMap.None? ==>
      r == LoadUrdf(expandVars(inpPath), position, quaternion, fixed, None)
    ensures Extension(expandVars(inpPath)) == "urdf" && packageMap.Some? ==>
      r == LoadUrdf(ResolvedUrdfPath, position, quaternion, fixed,
                    Some(Rewritten(readFile(expandVars(inpPath)), 0, packageMap.value)))
    ensures Extension(expandVars(inpPath)) == "sdf" ==> r == LoadSdf(expandVars(inpPath))
    ensures Extension(expandVars(inpPath)) !in {"urdf", "sdf"} ==>
      r == UnknownExtension(expandVars(inpPath), Extension(expandVars(inpPath)))
  {
    var fullPath := expandVars(inpPath);
    var ext := Extension(fullPath);
    if ext == "urdf" {
      if packageMap.Some? {
        var fullText := readFile(fullPath);
        var resolved := ResolvePackageUrls(fullText, packageMap.value);
        r := LoadUrdf(ResolvedUrdfPath, position, quaternion, fixed, Some(resolved));
      } else {
        r := LoadUrdf(fullPath, position, quaternion, fixed, None);
      }
    } else if ext == "sdf" {
      r := LoadSdf(fullPath);
    } else {
      r := UnknownExtension(fullPath, ext);
    }
  }
}
