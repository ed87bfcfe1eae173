/** The checks and the storage path of the image picker (src/components/ImageUpload.tsx). */
module ImageUpload {
  import opened Wrappers
  import opened Text

  datatype File = File(name: string, mimeType: string, size: nat)

  /** The largest accepted file, 5 MiB. */
  const MaxBytes: nat := 5 * 1024 * 1024

  const NotAnImage := "Please select an image file"
  const TooLarge := "Image size should be less than 5MB"

  /** What a file choice leads to: nothing, a rejection with its message, or an upload
      to the given object path. */
  datatype Decision = NoAction | Rejected(message: string) | Upload(path: string)

  /** `name.split('.').pop()`: the text after the last dot, or the whole name when it
      has no dot. */
  function Extension(name: string): (ext: string)
    ensures '.' !in ext
    ensures |ext| <= |name| && ext == name[|name| - |ext|..]
    ensures '.' in name ==> |ext| < |name| && name[|name| - |ext| - 1] == '.'
    ensures '.' !in name ==> ext == name
  {
    if |name| == 0 then name
    else if name[|name| - 1] == '.' then []
    else
      var init := name[..|name| - 1];
      var e := Extension(init);
      assert name == init + [name[|name| - 1]];
      e + [name[|name| - 1]]
  }

  /** `${userId}/${stamp}.${ext}`. */
  function ObjectPath(userId: string, stamp: nat, ext: string): (path: string)
    ensures StartsWith(path, userId + "/")
  {
    userId + "/" + NatToString(stamp) + "." + ext
  }

  /** `handleFileUpload`: no file or no user means no action; a type not starting with
      "image/" is rejected first, then a size above 5 MiB; anything else is uploaded under
      the user's folder, named by the stamp and the file's extension. */
  function HandleFileUpload(file: Option<File>, user: Option<string>, stamp: nat): (d: Decision)
    ensures file.None? || user.None? ==> d == NoAction
    ensures file.Some? && user.Some? ==> (
      && (d == Rejected(NotAnImage) <==> !StartsWith(file.value.mimeType, "image/"))
      && (d == Rejected(TooLarge) <==> StartsWith(file.value.mimeType, "image/") && file.value.size > MaxBytes)
      && (d.Upload? <==> StartsWith(file.value.mimeType, "image/") && file.value.size <= MaxBytes))
    ensures d.Upload? ==> d.path == ObjectPath(user.value, stamp, Extension(file.value.name))
  {
    if file.None? || user.None? then NoAction
    else if !StartsWith(file.value.mimeType, "image/") then Rejected(NotAnImage)
    else if file.value.size > MaxBytes then Rejected(TooLarge)
    else Upload(ObjectPath(user.value, stamp, Extension(file.value.name)))
  }

  /** The size bound is inclusive: an image of exactly 5 MiB is uploaded, one byte more
      is rejected. */
  lemma SizeBoundary(name: string, mime: string, uid: string, stamp: nat)
    requires StartsWith(mime, "image/")
    ensures HandleFileUpload(Some(File(name, mime, 5242880)), Some(uid), stamp).Upload?
    ensures HandleFileUpload(Some(File(name, mime, 5242881)), Some(uid), stamp) == Rejected(TooLarge)
  {
  }

  /** The type check comes first: a non-image gets the type message whatever its size. */
  lemma TypeBeforeSize(f: File, uid: string, stamp: nat)
    requires !StartsWith(f.mimeType, "image/") && f.size > MaxBytes
    ensures HandleFileUpload(Some(f), Some(uid), stamp) == Rejected(NotAnImage)
  {
  }

  /** The object path keeps the file's extension: reading the extension back from the
      path gives the extension of the chosen file's name. */
  lemma {:induction false} PathKeepsExtension(userId: string, stamp: nat, name: string)
    ensures Extension(ObjectPath(userId, stamp, Extension(name))) == Extension(name)
  {
    var ext := Extension(name);
    var prefix := userId + "/" + NatToString(stamp);
    assert ObjectPath(userId, stamp, ext) == (prefix + ".") + ext;
    ExtensionAfterDot(prefix, ext);
  }

  /** Whatever precedes the last dot does not affect the extension. */
  lemma {:induction false} ExtensionAfterDot(prefix: string, ext: string)
    requires '.' !in ext
    ensures Extension((prefix + ".") + ext) == ext
  {
    var s := (prefix + ".") + ext;
    if |ext| == 0 {
      assert s[|s| - 1] == '.';
    } else {
      var init := ext[..|ext| - 1];
      assert s[..|s| - 1] == (prefix + ".") + init;
      assert s[|s| - 1] == ext[|ext| - 1];
      ExtensionAfterDot(prefix, init);
      assert ext == init + [ext[|ext| - 1]];
    }
  }

  /** Two uploads by the same user at different stamps get different paths. */
  lemma PathsDiffer(userId: string, s1: nat, s2: nat, e1: string, e2: string)
    requires s1 != s2 && '.' !in e1 && '.' !in e2
    ensures ObjectPath(userId, s1, e1) != ObjectPath(userId, s2, e2)
  {
    var p1, p2 := ObjectPath(userId, s1, e1), ObjectPath(userId, s2, e2);
    var n1, n2 := NatToString(s1), NatToString(s2);
    NatToStringHasNo(s1, '.');
    NatToStringHasNo(s2, '.');
    NatToStringInjective(s1, s2);
    if p1 == p2 {
      var k := |userId| + 1;
      assert p1[k..] == n1 + "." + e1;
      assert p2[k..] == n2 + "." + e2;
      DotSplit(n1, e1, n2, e2);
    }
  }

  /** A string with exactly one dot splits there in one way. */
  lemma {:induction false} DotSplit(a: string, b: string, c: string, d: string)
    requires '.' !in a && '.' !in b && '.' !in c && '.' !in d
    requires a + "." + b == c + "." + d
    ensures a == c
  {
    var s := a + "." + b;
    DotIndex(a, b);
    DotIndex(c, d);
    assert !(|a| < |c|) && !(|c| < |a|);
    assert a == s[..|a|] == c;
  }

  /** In `x + "." + y` with no dot in `x`, the first dot sits at index `|x|`. */
  lemma DotIndex(x: string, y: string)
    requires '.' !in x
    ensures (x + "." + y)[|x|] == '.'
    ensures forall j :: 0 <= j < |x| ==> (x + "." + y)[j] != '.'
  {
    assert forall j :: 0 <= j < |x| ==> (x + "." + y)[j] == x[j];
  }
}
