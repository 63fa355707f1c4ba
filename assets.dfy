/**
 * Where the route looks for the original icon: `path.join(process.cwd(),
 * 'public', 'assets', svgKey + '.svg')`. Paths are kept relative to the
 * working directory; file storage is a map from such paths to file text.
 */
module Assets {
  import opened Text
  import opened RequestSchema

  /** The directory every asset path should stay in. */
  const AssetsDir: seq<string> := ["public", "assets"]

  /** A segment that path normalization keeps as it is. */
  predicate Plain(segment: string)
  {
    segment != "" && segment != "." && segment != ".."
  }

  /** The shape of a normalized relative path: no empty or `.` segment, and
      every `..` comes before all other segments. */
  predicate Normalized(segments: seq<string>)
  {
    && (forall i :: 0 <= i < |segments| ==> segments[i] != "" && segments[i] != ".")
    && (forall i, j :: 0 <= i < j < |segments| && segments[j] == ".." ==> segments[i] == "..")
  }

  /** Node's `path.normalize` on the segments of a relative POSIX path, read
      left to right: empty and `.` segments vanish, and `..` removes the
      segment before it, or stays when there is none to remove. Continuing a
      normalized prefix gives a normalized path no longer than the input. */
  function NormalizeOnto(done: seq<string>, todo: seq<string>): (r: seq<string>)
    ensures |r| <= |done| + |todo|
    ensures Normalized(done) ==> Normalized(r)
    decreases |todo|
  {
    if todo == [] then done
    else if todo[0] == "" || todo[0] == "." then NormalizeOnto(done, todo[1..])
    else if todo[0] == ".." then
      if |done| > 0 && done[|done| - 1] != ".." then NormalizeOnto(done[..|done| - 1], todo[1..])
      else NormalizeOnto(done + [".."], todo[1..])
    else NormalizeOnto(done + [todo[0]], todo[1..])
  }

  /** `path.normalize`: its result is normalized and never longer. */
  function Normalize(segments: seq<string>): (r: seq<string>)
    ensures |r| <= |segments|
    ensures Normalized(r)
  {
    NormalizeOnto([], segments)
  }

  /** The file the route reads for `key`, relative to the working directory. */
  function AssetPath(key: string): string
  {
    Join(Normalize(Split("public/assets/" + key + ".svg", '/')), '/')
  }

  /** Normalization leaves plain segments alone. */
  lemma {:induction false} NormalizePlain(done: seq<string>, todo: seq<string>)
    requires forall i :: 0 <= i < |todo| ==> Plain(todo[i])
    ensures NormalizeOnto(done, todo) == done + todo
    decreases |todo|
  {
    if todo != [] {
      NormalizePlain(done + [todo[0]], todo[1..]);
      assert done + [todo[0]] + todo[1..] == done + todo;
    }
  }

  /** A normalized path continues a normalized prefix unchanged. */
  lemma {:induction false} NormalizeOntoNormalized(done: seq<string>, todo: seq<string>)
    requires Normalized(done + todo)
    ensures NormalizeOnto(done, todo) == done + todo
    decreases |todo|
  {
    var p := done + todo;
    if todo != [] {
      assert todo[0] == p[|done|];
      if todo[0] == ".." {
        assert forall i :: 0 <= i < |done| ==> done[i] == p[i];
      }
      assert done + [todo[0]] + todo[1..] == p;
      NormalizeOntoNormalized(done + [todo[0]], todo[1..]);
    }
  }

  /** Normalization leaves a normalized path alone, so it is idempotent. */
  lemma NormalizeIdempotent(segments: seq<string>)
    ensures Normalized(segments) ==> Normalize(segments) == segments
    ensures Normalize(Normalize(segments)) == Normalize(segments)
  {
    if Normalized(segments) {
      NormalizeOntoNormalized([], segments);
    }
    NormalizeOntoNormalized([], Normalize(segments));
  }

  /** A path under `public/assets/` splits into those two segments and the
      segments of the rest. */
  lemma SplitUnderAssets(rest: string)
    ensures Split("public/assets/" + rest, '/') == AssetsDir + Split(rest, '/')
  {
    assert "public/assets/" + rest == "public" + ['/'] + ("assets" + ['/'] + rest);
    SplitUnderDirectories("public", "assets", rest);
  }

  lemma SplitUnderDirectories(first: string, second: string, rest: string)
    requires '/' !in first && '/' !in second
    ensures Split(first + ['/'] + (second + ['/'] + rest), '/') == [first, second] + Split(rest, '/')
  {
    SplitAt(first, '/', second + ['/'] + rest);
    SplitAt(second, '/', rest);
    SplitNoSeparator(first, '/');
    SplitNoSeparator(second, '/');
  }

  /** For an accepted key the joined path needs no normalization: it is
      `public/assets/<category>/<id>.svg`, four plain segments, so it cannot
      leave the assets directory. */
  lemma AssetPathOfKey(key: string)
    requires IsAssetKey(key)
    ensures AssetPath(key) == "public/assets/" + key + ".svg"
    ensures Split(AssetPath(key), '/') == AssetsDir + [Category(key), Id(key) + ".svg"]
    ensures forall segment :: segment in Split(AssetPath(key), '/') ==> Plain(segment)
  {
    KeyShape(key);
    var c, d := Category(key), Id(key);
    var file := d + ".svg";
    var raw := "public/assets/" + key + ".svg";
    assert raw == "public/assets/" + (c + ['/'] + file);
    assert '/' !in file by {
      assert forall p :: 0 <= p < |d| ==> file[p] == d[p];
    }
    SplitUnderAssets(c + ['/'] + file);
    SplitAt(c, '/', file);
    SplitNoSeparator(c, '/');
    SplitNoSeparator(file, '/');
    var segments := AssetsDir + [c, file];
    assert Split(raw, '/') == segments;
    assert c != "." && c != ".." by { assert c[0] != '.'; }
    assert file != ".." by { assert file[|file| - 1] == 'g'; }
    NormalizePlain([], segments);
    assert Normalize(Split(raw, '/')) == segments;
    JoinSplit(raw, '/');
    assert AssetPath(key) == Join(segments, '/');
  }

  /** Two `..` segments climb out of `public/assets`. */
  lemma NormalizeClimbsOut(file: string)
    requires Plain(file)
    ensures Normalize(AssetsDir + ["..", "..", file]) == [file]
  {
    var segments := AssetsDir + ["..", "..", file];
    assert "public" != "" && "public" != "." && "public" != "..";
    assert "assets" != "" && "assets" != "." && "assets" != "..";
    assert segments == ["public", "assets", "..", "..", file];
    assert segments[1..] == ["assets", "..", "..", file];
    assert [] + [segments[0]] == ["public"];
    assert NormalizeOnto([], segments) == NormalizeOnto(["public"], ["assets", "..", "..", file]);
    assert ["public"] + ["assets"] == ["public", "assets"];
    assert ["assets", "..", "..", file][1..] == ["..", "..", file];
    assert NormalizeOnto(["public"], ["assets", "..", "..", file])
      == NormalizeOnto(["public", "assets"], ["..", "..", file]);
    assert NormalizeOnto(["public", "assets"], ["..", "..", file]) == NormalizeOnto(["public"], ["..", file]);
    assert NormalizeOnto(["public"], ["..", file]) == NormalizeOnto([], [file]);
    assert NormalizeOnto([], [file]) == [file];
  }

  /** Without the key check the same code would leave the directory: the
      unchecked key `../../<name>` resolves to `<name>.svg` at the top of the
      working directory. */
  lemma UncheckedKeyLeavesAssets(name: string)
    requires '/' !in name
    ensures !IsAssetKey("../../" + name)
    ensures AssetPath("../../" + name) == name + ".svg"
  {
    var key := "../../" + name;
    var file := name + ".svg";
    assert key[0] == '.' && key[1] == '.' && key[2] == '/';
    assert IndexOf(key, '/') == 2;
    assert !IsLetter(key[..2][0]);
    var raw := "public/assets/" + key + ".svg";
    assert raw == "public/assets/" + (".." + ['/'] + (".." + ['/'] + file));
    assert '/' !in file by {
      assert forall p :: 0 <= p < |name| ==> file[p] == name[p];
    }
    SplitUnderAssets(".." + ['/'] + (".." + ['/'] + file));
    SplitUnderDirectories("..", "..", file);
    SplitNoSeparator(file, '/');
    assert Split(raw, '/') == AssetsDir + ["..", "..", file];
    assert Plain(file) by { assert file[|file| - 1] == 'g'; }
    NormalizeClimbsOut(file);
  }
}
