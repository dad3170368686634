/**
 * Model of the path and transform helpers of `PoserVisualizer`: the output
 * folder property, resolving result paths against it, the choice of the
 * response file, and the column-major reshape of a transform's coefficients.
 *
 * Reading the YAML file, the VTK containers and the conversion of the
 * reshaped matrix into a VTK transform are outside the model.
 */
module PoserVisualization {
  import opened Wrappers

  /** The response file `load_poser_response` reads, relative to the output folder. */
  const PoserResponseFile: string := "poser_response.yaml"

  /** The message of the `ValueError` raised when no output folder is set. */
  const NoFolderError: string := "poser_output_folder cannot be None"

  // ---------------------------------------------------------------- paths

  /**
   * POSIX `os.path.join` of two components: an absolute second component
   * replaces the first; otherwise it is appended, with a `/` in between
   * unless the first is empty or already ends in `/`.
   */
  function PathJoin(a: string, b: string): (r: string)
  {
    if |b| > 0 && b[0] == '/' then b
    else if a == [] || a[|a| - 1] == '/' then a + b
    else a + "/" + b
  }

  /** A relative second component is appended: the result starts with the folder and ends with the component. */
  lemma PathJoinRelative(a: string, b: string)
    requires b == [] || b[0] != '/'
    ensures |a| <= |PathJoin(a, b)| && PathJoin(a, b)[..|a|] == a
    ensures |b| <= |PathJoin(a, b)| && PathJoin(a, b)[|PathJoin(a, b)| - |b|..] == b
    ensures a != [] && a[|a| - 1] != '/' ==> PathJoin(a, b) == a + "/" + b
  {
    var r := PathJoin(a, b);
    if a == [] || a[|a| - 1] == '/' {
      assert r == a + b;
      assert r[..|a|] == a;
      assert r[|r| - |b|..] == b;
    } else {
      assert r == a + ("/" + b);
      assert r[..|a|] == a;
      assert r[|r| - |b|..] == b;
    }
  }

  /** An absolute second component is the whole result, whatever the folder. */
  lemma PathJoinAbsolute(a: string, b: string)
    requires |b| > 0 && b[0] == '/'
    ensures PathJoin(a, b) == b
  {
  }

  /** Joining never loses the second component: it is always a suffix of the result. */
  lemma PathJoinEndsWithComponent(a: string, b: string)
    ensures |b| <= |PathJoin(a, b)| && PathJoin(a, b)[|PathJoin(a, b)| - |b|..] == b
  {
    if b == [] || b[0] != '/' {
      PathJoinRelative(a, b);
    }
  }

  // ------------------------------------------------------------ transforms

  /**
   * `np.reshape(coeffs, [4, 4], order='F')`: the 16 coefficients fill the
   * 4x4 matrix column by column; any other number of coefficients fails.
   */
  function ParseTransform(coeffs: seq<real>): (r: Result<seq<seq<real>>>)
    ensures r.Ok? <==> |coeffs| == 16
    ensures r.Ok? ==> IsMatrix4(r.value)
    ensures r.Ok? ==> forall i, j :: 0 <= i < 4 && 0 <= j < 4 ==> r.value[i][j] == coeffs[4 * j + i]
  {
    if |coeffs| != 16 then Err("cannot reshape array into shape (4,4)")
    else Ok(seq(4, i requires 0 <= i < 4 => seq(4, j requires 0 <= j < 4 => coeffs[4 * j + i])))
  }

  /** Four rows of four entries. */
  predicate IsMatrix4(m: seq<seq<real>>)
  {
    |m| == 4 && forall i :: 0 <= i < 4 ==> |m[i]| == 4
  }

  /** The column-major list of a 4x4 matrix's coefficients: entry `(i, j)` at position `4 * j + i`. */
  function FlattenColumnMajor(m: seq<seq<real>>): (coeffs: seq<real>)
    requires IsMatrix4(m)
    ensures |coeffs| == 16
    ensures forall k :: 0 <= k < 16 ==> coeffs[k] == m[k % 4][k / 4]
  {
    seq(16, k requires 0 <= k < 16 => m[k % 4][k / 4])
  }

  /** Parsing a matrix's column-major list gives the matrix back. */
  lemma ParseFlattenRoundTrip(m: seq<seq<real>>)
    requires IsMatrix4(m)
    ensures ParseTransform(FlattenColumnMajor(m)) == Ok(m)
  {
    var r := ParseTransform(FlattenColumnMajor(m));
    assert r.Ok?;
    var p := r.value;
    forall i | 0 <= i < 4
      ensures p[i] == m[i]
    {
      forall j | 0 <= j < 4
        ensures p[i][j] == m[i][j]
      {
        assert (4 * j + i) % 4 == i && (4 * j + i) / 4 == j;
      }
      assert |p[i]| == |m[i]| == 4;
    }
    assert p == m;
  }

  /** Flattening a parsed transform gives its 16 coefficients back. */
  lemma FlattenParseRoundTrip(coeffs: seq<real>)
    requires |coeffs| == 16
    ensures FlattenColumnMajor(ParseTransform(coeffs).value) == coeffs
  {
    var f := FlattenColumnMajor(ParseTransform(coeffs).value);
    forall k | 0 <= k < 16
      ensures f[k] == coeffs[k]
    {
      assert 4 * (k / 4) + k % 4 == k;
    }
  }

  // ------------------------------------------------------------ the class

  class PoserVisualizer {
    var poserOutputFolder: Option<string>

    /** The output folder may be left unset. */
    constructor (poserOutputFolder: Option<string>)
      ensures this.poserOutputFolder == poserOutputFolder
    {
      this.poserOutputFolder := poserOutputFolder;
    }

    /** The `poser_output_folder` property. */
    function PoserOutputFolder(): Option<string>
      reads this
    {
      poserOutputFolder
    }

    /** The property's setter: it changes the folder and nothing else, so reading it back gives `value`. */
    method SetPoserOutputFolder(value: Option<string>)
      modifies this
      ensures PoserOutputFolder() == value
    {
      poserOutputFolder := value;
    }

    /**
     * A path relative to the output folder, made absolute by joining it onto
     * the folder; it fails with `ValueError` exactly when no folder is set.
     */
    function ConvertRelativePathToAbsolute(path: string): (r: Result<string>)
      reads this
      ensures r.Err? <==> poserOutputFolder.None?
      ensures r.Err? ==> r.error == NoFolderError
      ensures r.Ok? ==> r.value == PathJoin(poserOutputFolder.value, path)
    {
      match poserOutputFolder
      case None => Err(NoFolderError)
      case Some(folder) => Ok(PathJoin(folder, path))
    }

    /**
     * The file `load_poser_response` opens: `poser_response.yaml` in the
     * output folder, or the `ValueError` when no folder is set.
     */
    method LoadPoserResponse() returns (filename: Result<string>)
      ensures filename.Err? <==> poserOutputFolder.None?
      ensures filename.Ok? ==> filename.value == PathJoin(poserOutputFolder.value, PoserResponseFile)
    {
      filename := ConvertRelativePathToAbsolute(PoserResponseFile);
    }
  }

  /** With a folder set, the response file lies inside it and is named `poser_response.yaml`. */
  lemma ResponseFileInFolder(v: PoserVisualizer)
    requires v.poserOutputFolder.Some?
    ensures var r := v.ConvertRelativePathToAbsolute(PoserResponseFile);
      r.Ok? && |v.poserOutputFolder.value| <= |r.value| &&
      r.value[..|v.poserOutputFolder.value|] == v.poserOutputFolder.value &&
      r.value[|r.value| - |PoserResponseFile|..] == PoserResponseFile
  {
    PathJoinRelative(v.poserOutputFolder.value, PoserResponseFile);
  }
}
