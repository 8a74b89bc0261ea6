/** A manifest that is accepted, and whose canonical form is not. */
module ManifestWitness {
  import opened Common
  import opened Sorting
  import opened Json
  import opened Manifest

  function Zeros(n: nat): (r: string)
    ensures |r| == n && forall i :: 0 <= i < n ==> r[i] == '0'
  {
    if n == 0 then "" else "0" + Zeros(n - 1)
  }

  const PNG: string := "assets/b.png"
  const JPG: string := "assets/a.jpg"

  /** toLowerCase leaves these lower-case texts alone. */
  predicate KeepsLowerCase(env: Platform) {
    env.lower(PNG) == PNG && env.lower(JPG) == JPG && env.lower(".png") == ".png" && env.lower(".jpg") == ".jpg"
  }

  const Image: File := File(PNG, "animation", "image/png", 1, Zeros(64))
  const Photo: File := File(JPG, "animation", "image/jpeg", 1, Zeros(64))

  /** The PNG comes first, but sorts last. */
  const Sheet: Animation :=
    Animation("Idle_Neutral", SpriteSheet, [PNG, JPG], Some(300), Some(300), Some(1), Some(16), true)

  function Still(name: string): Animation { Animation(name, Static, [PNG], None, None, None, None, false) }

  const Lost: Manifest :=
    Manifest("our-companion-asset-pack", 1, "Idle_Neutral", None, None, [Sheet, Still("Enter"), Still("Leave")], [Image, Photo])

  // ------------------------------------------------------------------ paths

  lemma {:induction false} SplitPlain(s: string)
    requires '/' !in s
    ensures Split(s) == [s]
  {
    if s != "" {
      assert s[0] in s && s == [s[0]] + s[1..];
      SplitPlain(s[1..]);
    }
  }

  lemma {:induction false} SplitAt(a: string, b: string)
    requires '/' !in a
    ensures Split(a + "/" + b) == [a] + Split(b)
  {
    var s := a + "/" + b;
    if a == "" {
      assert s[1..] == b;
    } else {
      assert s[0] == a[0] && a[0] in a && s[1..] == a[1..] + "/" + b;
      SplitAt(a[1..], b);
      assert ([a[1..]] + Split(b))[1..] == Split(b) && [a[0]] + a[1..] == a;
    }
  }

  lemma {:induction false} ExtensionOf(stem: string, ext: string)
    requires '.' !in ext
    ensures Extension(stem + "." + ext) == "." + ext
  {
    var s := stem + "." + ext;
    assert s[|stem|] == '.';
    if ext != "" {
      assert s[..|s| - 1] == stem + "." + ext[..|ext| - 1];
      ExtensionOf(stem, ext[..|ext| - 1]);
    }
  }

  ghost predicate PlainCharacters(s: string) { forall i :: 0 <= i < |s| ==> 'a' <= s[i] <= 'z' || s[i] == '.' || s[i] == '/' }

  lemma PlainIsSafe(s: string)
    requires PlainCharacters(s) && s != "" && s[0] != '/'
    ensures !UnsafeCharacters(s)
  {
    hide EncodesSeparator;
    NothingEncoded(s);
  }

  lemma NothingEncoded(s: string)
    requires PlainCharacters(s)
    ensures !EncodesSeparator(s)
  {
  }

  lemma PlainName(name: string)
    requires PlainCharacters(name) && '/' !in name && name != "" && name[0] != '.'
    ensures NormalizePath("assets/" + name) == Some("assets/" + name)
  {
    var s := "assets/" + name;
    forall i | 0 <= i < |s| ensures 'a' <= s[i] <= 'z' || s[i] == '.' || s[i] == '/' {
      assert i >= 7 ==> s[i] == name[i - 7];
    }
    assert s[0] == 'a';
    PlainIsSafe(s);
    assert s == "assets" + "/" + name;
    SplitAt("assets", name);
    SplitPlain(name);
    assert s[..7] == "assets/";
    TwoSegments("assets", name);
    hide UnsafeCharacters, PlainCharacters, Split, Join;
  }

  lemma TwoSegments(a: string, b: string)
    ensures Join([a, b]) == a + "/" + b
  {
    assert [a, b][1..] == [b];
  }

  /** A file directly under `assets` is accepted as it is. */
  lemma PathAccepted(path: string, name: string, stem: string, ext: string)
    requires path == "assets/" + name && name == stem + "." + ext && PlainCharacters(name)
    requires '/' !in name && stem != "" && stem[0] != '.' && '.' !in ext
    ensures NormalizePath(path) == Some(path) && Extension(path) == "." + ext
  {
    PlainName(name);
    ExtensionOf("assets/" + stem, ext);
    hide NormalizePath, Extension, PlainCharacters;
    assert path == ("assets/" + stem) + "." + ext;
  }

  lemma PngAccepted()
    ensures NormalizePath(PNG) == Some(PNG) && Extension(PNG) == "." + "png"
  {
    hide NormalizePath, Extension;
    PathAccepted(PNG, "b.png", "b", "png");
  }

  lemma JpgAccepted()
    ensures NormalizePath(JPG) == Some(JPG) && Extension(JPG) == "." + "jpg"
  {
    hide NormalizePath, Extension;
    PathAccepted(JPG, "a.jpg", "a", "jpg");
  }

  // ------------------------------------------------------------------ acceptance

  lemma AllowedImages()
    ensures Allowed(".png") == Some(("image/png", ImageCategories())) && Allowed(".jpg") == Some(("image/jpeg", ImageCategories()))
    ensures "animation" in ImageCategories()
  {
  }

  lemma FileAccepted(env: Platform, limits: Limits, f: File)
    requires env.maxSafe >= 2 && limits.maxFileBytes >= 1 && f.sizeBytes == 1 && f.sha256 == Zeros(64)
    requires NormalizePath(f.relativePath) == Some(f.relativePath)
    requires Allowed(env.lower(Extension(f.relativePath))) == Some((f.mimeType, ImageCategories())) && f.category in ImageCategories()
    ensures FileOk(env, limits, f)
  {
    hide NormalizePath, Allowed, Extension;
  }

  lemma ImageAccepted(env: Platform, limits: Limits)
    requires KeepsLowerCase(env) && env.maxSafe >= 2 && limits.maxFileBytes >= 1
    ensures FileOk(env, limits, Image)
  {
    PngAccepted();
    AllowedImages();
    hide NormalizePath, Extension, Allowed, FileOk, ImageCategories, Zeros;
    assert "." + "png" == ".png";
    FileAccepted(env, limits, Image);
  }

  lemma PhotoAccepted(env: Platform, limits: Limits)
    requires KeepsLowerCase(env) && env.maxSafe >= 2 && limits.maxFileBytes >= 1
    ensures FileOk(env, limits, Photo)
  {
    JpgAccepted();
    AllowedImages();
    hide NormalizePath, Extension, Allowed, FileOk, ImageCategories, Zeros;
    assert "." + "jpg" == ".jpg";
    FileAccepted(env, limits, Photo);
  }

  lemma SheetSorts()
    ensures Sort(Sheet.files, ByCodeUnits()) == [JPG, PNG]
  {
    var leq := ByCodeUnits();
    assert Sort([JPG], leq) == [JPG] by {
      assert [JPG][1..] == [];
    }
    assert [PNG, JPG][1..] == [JPG];
    PngIsLater();
    assert Insert(PNG, [JPG], leq) == [JPG] + Insert(PNG, [JPG][1..], leq);
  }

  lemma PngIsLater()
    ensures !ByCodeUnits()(PNG, JPG)
  {
  }

  lemma FilesFound()
    ensures FindFile(Lost.files, PNG) == Some(Image) && FindFile(Lost.files, JPG) == Some(Photo)
  {
    assert Lost.files[1..] == [Photo];
    assert PNG[7] != JPG[7];
    assert FindFile([Photo], JPG) == Some(Photo);
  }

  lemma LostFiles(env: Platform, limits: Limits)
    requires KeepsLowerCase(env) && env.maxSafe >= 2 && limits.maxFileBytes >= 1
    ensures forall i :: 0 <= i < |Lost.files| ==> FileOk(env, limits, Lost.files[i])
  {
    ImageAccepted(env, limits);
    PhotoAccepted(env, limits);
    hide *;
    EachOf(Lost.files, Image, Photo);
    hide FileOk;
  }

  lemma EachOf(files: seq<File>, a: File, b: File)
    requires files == [a, b]
    ensures forall i :: 0 <= i < |files| ==> files[i] == a || files[i] == b
  {
  }

  lemma LostPaths(env: Platform)
    requires KeepsLowerCase(env)
    ensures LowerPathsDiffer(env, Lost.files)
  {
    hide Zeros, Still;
    assert PNG[7] != JPG[7];
  }

  lemma LostTotal()
    ensures TotalBytes(Lost.files) == 2
  {
    hide Zeros, Still;
    assert Lost.files[1..] == [Photo] && [Photo][1..] == [];
    assert TotalBytes([Photo]) == 1;
  }

  lemma LostAnimations(env: Platform)
    ensures forall i :: 0 <= i < |Lost.animations| ==> AnimationOk(env, Lost.files, Lost.animations[i])
  {
    FilesFound();
    hide FindFile;
    assert AnimationOk(env, Lost.files, Sheet);
    assert AnimationOk(env, Lost.files, Still("Enter"));
    assert AnimationOk(env, Lost.files, Still("Leave"));
  }

  lemma LostNames()
    ensures UniqueNames(Lost.animations) && forall i :: 0 <= i < |REQUIRED| ==> Names(Lost.animations, REQUIRED[i])
  {
    assert Lost.animations[0].name == "Idle_Neutral" && Lost.animations[1].name == "Enter" && Lost.animations[2].name == "Leave";
    assert |"Idle_Neutral"| == 12 && |"Enter"| == 5 && "Enter"[0] != "Leave"[0];
  }

  lemma LostAccepted(env: Platform, limits: Limits)
    requires KeepsLowerCase(env) && env.maxSafe >= 2
    requires limits.maxFileBytes >= 1 && limits.maxPackBytes >= 2 && limits.maxPackFiles >= 2
    ensures Acceptable(env, limits, Lost)
  {
    LostFiles(env, limits);
    LostPaths(env);
    LostTotal();
    LostAnimations(env);
    LostNames();
    hide FileOk, TotalBytes, LowerPathsDiffer, AnimationOk, UniqueNames, Names, KeepsLowerCase, Zeros, Still, Acceptable;
    AllAccepted(env, limits, Lost);
  }

  lemma AllAccepted(env: Platform, limits: Limits, m: Manifest)
    requires m.format == "our-companion-asset-pack" && m.schemaVersion == 1 && m.defaultAnimation == "Idle_Neutral"
    requires 0 < |m.files| <= limits.maxPackFiles && (forall i :: 0 <= i < |m.files| ==> FileOk(env, limits, m.files[i]))
    requires LowerPathsDiffer(env, m.files) && TotalBytes(m.files) <= limits.maxPackBytes && TotalBytes(m.files) <= env.maxSafe
    requires (forall i :: 0 <= i < |m.animations| ==> AnimationOk(env, m.files, m.animations[i])) && UniqueNames(m.animations)
    requires forall i :: 0 <= i < |REQUIRED| ==> Names(m.animations, REQUIRED[i])
    requires m.portraitPath.None? && m.iconPath.None?
    ensures Acceptable(env, limits, m)
  {
    hide FileOk, TotalBytes, LowerPathsDiffer, AnimationOk, UniqueNames, Names;
  }

  lemma LostUnsorted()
    ensures !SheetsSorted(Lost)
  {
    SheetSorts();
    FilesFound();
    hide Sort, FindFile;
    assert Lost.animations[0] == Sheet && !IsPng(Lost.files, JPG);
  }

  /** On every platform whose toLowerCase leaves lower-case letters alone, and with any limits that admit two
      files of one byte: the manifest is accepted; and given its own hash it validates, but what
      validation returns does not validate again. */
  lemma SheetLost(env: Platform, limits: Limits)
    requires PlatformOk(env) && KeepsLowerCase(env) && env.maxSafe >= 2
    requires limits.maxFileBytes >= 1 && limits.maxPackBytes >= 2 && limits.maxPackFiles >= 2
    ensures Acceptable(env, limits, Lost) && !Acceptable(env, limits, Canonical(env, Lost))
    ensures var hash := env.digest(CanonicalText(env, Lost));
            IsHash(hash) ==>
              var r := Validate(env, limits, Lost, hash);
              r.Some? && Validate(env, limits, r.value.manifest, hash).None?
  {
    LostAccepted(env, limits);
    LostUnsorted();
    ReacceptedExactly(env, limits, Lost);
    hide *;
    NotAgain(env, limits, Lost);
  }

  lemma NotAgain(env: Platform, limits: Limits, m: Manifest)
    requires PlatformOk(env) && Acceptable(env, limits, m) && !Acceptable(env, limits, Canonical(env, m))
    ensures var hash := env.digest(CanonicalText(env, m));
            IsHash(hash) ==>
              var r := Validate(env, limits, m, hash);
              r.Some? && Validate(env, limits, r.value.manifest, hash).None?
  {
    hide Acceptable, Canonical, CanonicalText, IsHash;
  }
}
