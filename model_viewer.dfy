/**
 * URL handling of the 3D model viewer: the material (MTL) URL is derived
 * from the model (OBJ) URL, and both are split at their last '/' into the
 * base path and the file name the loaders are given.
 */
module ModelViewer {
  import opened Wrappers
  import opened Text

  /** The last position below `n` holding `c`, or -1. */
  function LastIndexBelow(s: string, c: char, n: nat): (i: int)
    requires n <= |s|
    ensures -1 <= i < n
    ensures i >= 0 ==> s[i] == c
    ensures forall p :: i < p < n ==> s[p] != c
  {
    if n == 0 then -1
    else if s[n - 1] == c then n - 1
    else LastIndexBelow(s, c, n - 1)
  }

  /** `s.lastIndexOf(c)`: the last position holding `c`, or -1. */
  function LastIndexOf(s: string, c: char): (i: int)
    ensures -1 <= i < |s|
    ensures i >= 0 ==> s[i] == c
    ensures forall p :: i < p < |s| ==> s[p] != c
  {
    LastIndexBelow(s, c, |s|)
  }

  /** The last position of `c` is the one holding `c` with none after it. */
  lemma LastIndexOfIs(s: string, c: char, i: int)
    requires -1 <= i < |s|
    requires i >= 0 ==> s[i] == c
    requires forall p :: i < p < |s| ==> s[p] != c
    ensures LastIndexOf(s, c) == i
  {
    var k := LastIndexOf(s, c);
    assert !(k < i) && !(i < k);
  }

  /** `url.substring(0, url.lastIndexOf('/') + 1)`: everything up to and including the last '/'. */
  function BasePath(url: string): string
  {
    url[..LastIndexOf(url, '/') + 1]
  }

  /** `url.substring(url.lastIndexOf('/') + 1)`: everything after the last '/'. */
  function FileName(url: string): string
  {
    url[LastIndexOf(url, '/') + 1..]
  }

  /** The split loses nothing: base path and file name put back together give the URL. */
  lemma SplitRoundTrip(url: string)
    ensures BasePath(url) + FileName(url) == url
  {
  }

  /**
   * The file name holds no '/'; the base path is empty exactly when the URL
   * has no '/', and otherwise ends with one.
   */
  lemma SplitShape(url: string)
    ensures '/' !in FileName(url)
    ensures BasePath(url) == [] <==> '/' !in url
    ensures BasePath(url) != [] ==> BasePath(url)[|BasePath(url)| - 1] == '/'
  {
    var f := FileName(url);
    assert forall t :: 0 <= t < |f| ==> f[t] == url[LastIndexOf(url, '/') + 1 + t];
  }

  /**
   * `s.replace(pat, rep)` with a string pattern: only the first occurrence
   * is replaced, and `s` is returned unchanged when `pat` does not occur.
   */
  function ReplaceFirst(s: string, pat: string, rep: string): (r: string)
  {
    var i := IndexOf(s, pat);
    if i < 0 then s else s[..i] + rep + s[i + |pat|..]
  }

  /** `modelUrl ? modelUrl.replace('.obj', '.mtl') : null` */
  function MtlUrl(modelUrl: Option<string>): (r: Option<string>)
  {
    if modelUrl.None? || modelUrl.value == "" then None
    else Some(ReplaceFirst(modelUrl.value, ".obj", ".mtl"))
  }

  /**
   * The MTL URL: absent for a null or empty model URL; otherwise the model
   * URL with its FIRST ".obj" turned into ".mtl", and the model URL itself
   * when it holds no ".obj".
   */
  lemma MtlUrlSpec(modelUrl: Option<string>)
    ensures MtlUrl(modelUrl).None? <==> modelUrl.None? || modelUrl == Some("")
    ensures modelUrl.Some? && modelUrl.value != "" && (forall j :: !OccursAt(modelUrl.value, ".obj", j)) ==>
              MtlUrl(modelUrl) == modelUrl
    ensures forall i :: modelUrl.Some? && OccursAt(modelUrl.value, ".obj", i) &&
                        (forall j :: 0 <= j < i ==> !OccursAt(modelUrl.value, ".obj", j)) ==>
              MtlUrl(modelUrl) == Some(modelUrl.value[..i] + ".mtl" + modelUrl.value[i + 4..])
  {
    if modelUrl.Some? {
      var url := modelUrl.value;
      forall i | OccursAt(url, ".obj", i) && (forall j :: 0 <= j < i ==> !OccursAt(url, ".obj", j))
        ensures IndexOf(url, ".obj") == i
      {
        IndexOfIs(url, ".obj", i);
      }
    }
  }

  /** What the model component asks its loaders for. */
  datatype LoadPlan = LoadPlan(
    materialPath: string,   // mtlLoader.setPath(basePath); objLoader.setPath(basePath) as well
    materialFile: string,   // mtlLoader.load(mtlFileName)
    objectFile: string,     // objLoader.load(objFileName), relative to materialPath
    fallbackUrl: string)    // the OBJ loaded without materials when the MTL fails

  /** The requests of `RobotModel` for a given OBJ and MTL URL. */
  function PlanLoads(objUrl: string, mtlUrl: string): (p: LoadPlan)
  {
    LoadPlan(BasePath(mtlUrl), FileName(mtlUrl), FileName(objUrl), objUrl)
  }

  /** A loader given a path fetches `path + file`. */
  function MaterialRequest(p: LoadPlan): string { p.materialPath + p.materialFile }
  function ObjectRequest(p: LoadPlan): string { p.materialPath + p.objectFile }

  /**
   * The material request is exactly the MTL URL, the fallback is the whole
   * unsplit OBJ URL, and the object file is the OBJ URL's last segment.
   */
  lemma PlanLoadsSpec(objUrl: string, mtlUrl: string)
    ensures MaterialRequest(PlanLoads(objUrl, mtlUrl)) == mtlUrl
    ensures PlanLoads(objUrl, mtlUrl).fallbackUrl == objUrl
    ensures objUrl == BasePath(objUrl) + PlanLoads(objUrl, mtlUrl).objectFile
    ensures '/' !in PlanLoads(objUrl, mtlUrl).objectFile
  {
    SplitRoundTrip(mtlUrl);
    SplitRoundTrip(objUrl);
    SplitShape(objUrl);
  }

  /** `s` with the four characters at `i` replaced by `rep`. */
  function Splice(s: string, i: int, rep: string): (r: string)
    requires 0 <= i <= |s| - 4
  {
    s[..i] + rep + s[i + 4..]
  }

  /** The last `c` of `a + b` is that of `a` when `b` holds none. */
  lemma LastIndexOfAppend(a: string, b: string, c: char)
    requires c !in b
    ensures LastIndexOf(a + b, c) == LastIndexOf(a, c)
  {
    var ab := a + b;
    forall p | LastIndexOf(a, c) < p < |ab| ensures ab[p] != c {
      if p >= |a| { assert ab[p] == b[p - |a|]; }
    }
    LastIndexOfIs(ab, c, LastIndexOf(a, c));
  }

  /** Splicing inside the second part of a concatenation splices that part alone. */
  lemma SpliceShift(a: string, f: string, k: int, rep: string)
    requires 0 <= k <= |f| - 4
    ensures Splice(a + f, |a| + k, rep) == a + Splice(f, k, rep)
  {
    assert (a + f)[..|a| + k] == a + f[..k];
    assert (a + f)[|a| + k + 4..] == f[k + 4..];
  }

  /** Splicing after the last '/' splices the file name and keeps the base path in front. */
  lemma SpliceSplits(url: string, i: int)
    requires LastIndexOf(url, '/') < i <= |url| - 4
    ensures Splice(url, i, ".mtl") == BasePath(url) + Splice(FileName(url), i - LastIndexOf(url, '/') - 1, ".mtl")
  {
    SplitRoundTrip(url);
    SpliceShift(BasePath(url), FileName(url), i - LastIndexOf(url, '/') - 1, ".mtl");
  }

  /** A file name spliced with ".mtl" still holds no '/'. */
  lemma SplicedFileNameHasNoSlash(url: string, k: int)
    requires 0 <= k <= |FileName(url)| - 4
    ensures '/' !in Splice(FileName(url), k, ".mtl")
  {
    SplitShape(url);
    var f := FileName(url);
    assert '/' !in f[..k] && '/' !in f[k + 4..];
  }

  /**
   * Replacing four characters after the last '/' by ".mtl" keeps the last
   * '/' in place, keeps the base path, and replaces the same four
   * characters of the file name.
   */
  lemma SpliceAfterLastSlash(url: string, i: int)
    requires LastIndexOf(url, '/') < i <= |url| - 4
    ensures BasePath(Splice(url, i, ".mtl")) == BasePath(url)
    ensures FileName(Splice(url, i, ".mtl")) == Splice(FileName(url), i - LastIndexOf(url, '/') - 1, ".mtl")
  {
    var s := LastIndexOf(url, '/');
    var base := BasePath(url);
    var g := Splice(FileName(url), i - s - 1, ".mtl");
    assert '/' !in g by { SplicedFileNameHasNoSlash(url, i - s - 1); }
    assert |base| == LastIndexOf(base, '/') + 1 by { LastIndexOfIs(base, '/', s); }
    SplitOfAppend(base, g);
    SpliceSplits(url, i);
  }

  /** A path ending at its last '/' followed by a name without '/' splits back into the two. */
  lemma SplitOfAppend(base: string, g: string)
    requires |base| == LastIndexOf(base, '/') + 1
    requires '/' !in g
    ensures BasePath(base + g) == base && FileName(base + g) == g
  {
    LastIndexOfAppend(base, g, '/');
    assert (base + g)[..|base|] == base;
    assert (base + g)[|base|..] == g;
  }

  /** The first ".obj" of the file name is the first ".obj" of the URL, when that lies after the last '/'. */
  lemma FirstOccurrenceInFileName(url: string)
    requires IndexOf(url, ".obj") > LastIndexOf(url, '/')
    ensures IndexOf(FileName(url), ".obj") == IndexOf(url, ".obj") - LastIndexOf(url, '/') - 1
  {
    var i := IndexOf(url, ".obj");
    var s := LastIndexOf(url, '/');
    var f := FileName(url);
    var k := i - s - 1;
    assert OccursAt(f, ".obj", k) by {
      assert f[k..k + 4] == url[i..i + 4];
    }
    forall j | 0 <= j < k ensures !OccursAt(f, ".obj", j) {
      if OccursAt(f, ".obj", j) {
        assert url[s + 1 + j..s + 1 + j + 4] == f[j..j + 4];
        assert OccursAt(url, ".obj", s + 1 + j);
      }
    }
    IndexOfIs(f, ".obj", k);
  }

  /**
   * When the first ".obj" of the model URL lies after its last '/', the
   * derived MTL URL has the same base path, its file name is the OBJ file
   * name with that ".obj" turned into ".mtl", and the OBJ loader (which is
   * pointed at the MTL's base path) fetches exactly the model URL.
   */
  lemma SameDirectoryWhenExtensionInFileName(url: string)
    requires IndexOf(url, ".obj") > LastIndexOf(url, '/')
    ensures MtlUrl(Some(url)).Some?
    ensures BasePath(MtlUrl(Some(url)).value) == BasePath(url)
    ensures FileName(MtlUrl(Some(url)).value) == ReplaceFirst(FileName(url), ".obj", ".mtl")
    ensures ObjectRequest(PlanLoads(url, MtlUrl(Some(url)).value)) == url
  {
    var i := IndexOf(url, ".obj");
    assert MtlUrl(Some(url)) == Some(Splice(url, i, ".mtl"));
    SpliceAfterLastSlash(url, i);
    FirstOccurrenceInFileName(url);
    SplitRoundTrip(url);
  }

  /** Where the last '/' and the first ".obj" of the viewer's own model URL are. */
  lemma DashboardModelPositions()
    ensures LastIndexOf("/models/44bot.obj", '/') == 7
    ensures IndexOf("/models/44bot.obj", ".obj") == 13
  {
    var url := "/models/44bot.obj";
    LastIndexOfIs(url, '/', 7);
    assert OccursAt(url, ".obj", 13);
    assert url[..13] == "/models/44bot";
    forall j | 0 <= j < 13 ensures !OccursAt(url, ".obj", j) {
      assert url[j..j + 4][0] == url[j] == url[..13][j] != '.';
    }
    IndexOfIs(url, ".obj", 13);
  }

  /** The viewer's own model URL gives "/models/44bot.mtl". */
  lemma DashboardModelMtl()
    ensures MtlUrl(Some("/models/44bot.obj")) == Some("/models/44bot.mtl")
  {
    var stem := "/models/44bot";
    var url := stem + ".obj";
    assert url == "/models/44bot.obj";
    assert stem + ".mtl" == "/models/44bot.mtl";
    DashboardModelPositions();
    assert url[..13] == stem && url[17..] == [];
    assert ReplaceFirst(url, ".obj", ".mtl") == url[..13] + ".mtl" + url[13 + 4..];
    assert stem + ".mtl" + [] == stem + ".mtl";
  }

  /** Both of the viewer's URLs split after "/models/". */
  lemma DashboardModelPlan()
    ensures PlanLoads("/models/44bot.obj", "/models/44bot.mtl") == LoadPlan("/models/", "44bot.mtl", "44bot.obj", "/models/44bot.obj")
  {
    var url := "/models/44bot.obj";
    var mtl := "/models/44bot.mtl";
    DashboardModelPositions();
    LastIndexOfIs(mtl, '/', 7);
    assert mtl[..8] == "/models/" && mtl[8..] == "44bot.mtl" && url[8..] == "44bot.obj";
  }

  /** The viewer's own model: "/models/44bot.obj" gives "/models/44bot.mtl" in the same directory. */
  lemma DashboardModel()
    ensures MtlUrl(Some("/models/44bot.obj")) == Some("/models/44bot.mtl")
    ensures PlanLoads("/models/44bot.obj", MtlUrl(Some("/models/44bot.obj")).value) ==
            LoadPlan("/models/", "44bot.mtl", "44bot.obj", "/models/44bot.obj")
  {
    DashboardModelMtl();
    DashboardModelPlan();
  }

  /**
   * Only the first ".obj" is replaced: for "a.obj/b.obj" the MTL URL is
   * "a.mtl/b.obj", whose file name is still "b.obj", and the OBJ loader
   * then fetches "a.mtl/b.obj" instead of the model URL.
   */
  lemma FirstOccurrenceInDirectory()
    ensures MtlUrl(Some("a.obj/b.obj")) == Some("a.mtl/b.obj")
    ensures PlanLoads("a.obj/b.obj", "a.mtl/b.obj").materialFile == "b.obj"
    ensures ObjectRequest(PlanLoads("a.obj/b.obj", "a.mtl/b.obj")) != "a.obj/b.obj"
  {
    var url := "a.obj/b.obj";
    assert OccursAt(url, ".obj", 1);
    assert url[0] == 'a';
    IndexOfIs(url, ".obj", 1);
    var mtl := "a.mtl/b.obj";
    assert Splice(url, 1, ".mtl") == mtl;
    LastIndexOfIs(mtl, '/', 5);
    LastIndexOfIs(url, '/', 5);
    assert ObjectRequest(PlanLoads(url, mtl)) == mtl;
    assert mtl[2] != url[2];
  }
}
