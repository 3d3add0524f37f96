/**
 * The filename checks the servers apply to an upload before touching it:
 * the extension as os.path.splitext finds it on a POSIX path, lower-cased
 * and compared with the accepted audio formats.  Only the status code of
 * a refusal is modelled; the detail messages are not.
 */
module UploadRules {
  import opened Common

  /** Some character of p[lo..hi] is not a dot. */
  predicate HasNonDot(p: string, lo: int, hi: int)
    requires 0 <= lo && hi <= |p|
  {
    exists i :: lo <= i < hi && p[i] != '.'
  }

  /**
   * os.path.splitext: the extension runs from the last dot to the end,
   * provided that dot comes after the last slash and is not one of the
   * leading dots of the last path component; otherwise it is empty.
   */
  function SplitExt(p: string): (r: (string, string))
    ensures r.0 + r.1 == p
    ensures r.1 == [] || (r.1[0] == '.' && forall i :: 0 < i < |r.1| ==> r.1[i] != '.' && r.1[i] != '/')
  {
    var sep := RFind(p, '/');
    var dot := RFind(p, '.');
    if dot > sep && HasNonDot(p, sep + 1, dot) then
      assert p[..dot] + p[dot..] == p;
      (p[..dot], p[dot..])
    else
      assert p + [] == p;
      (p, [])
  }

  /** A well-formed extension: a dot followed by characters that are neither dots nor slashes. */
  predicate IsExtension(ext: string) {
    |ext| >= 1 && ext[0] == '.' && forall i :: 0 < i < |ext| ==> ext[i] != '.' && ext[i] != '/'
  }

  /** A root whose last component has a character other than a dot. */
  predicate IsRoot(root: string) {
    HasNonDot(root, RFind(root, '/') + 1, |root|)
  }

  /** Joining a root and an extension and splitting again gives them back. */
  lemma SplitExtJoin(root: string, ext: string)
    requires IsRoot(root) && IsExtension(ext)
    ensures SplitExt(root + ext) == (root, ext)
  {
    var p := root + ext;
    var dot := RFind(p, '.');
    var sep := RFind(p, '/');
    assert p[|root|] == '.';
    assert dot == |root|;
    var rsep := RFind(root, '/');
    assert sep == rsep by {
      if rsep >= 0 {
        assert p[rsep] == '/';
      }
      if sep >= 0 {
        assert p[sep] == '/';
      }
    }
    var i :| rsep + 1 <= i < |root| && root[i] != '.';
    assert p[i] != '.';
    assert HasNonDot(p, sep + 1, dot);
    assert p[..dot] == root;
    assert p[dot..] == ext;
  }

  /** A name made only of a dot-led extension, such as ".wav", has no extension. */
  lemma DotNameHasNoExtension(ext: string)
    requires IsExtension(ext)
    ensures SplitExt(ext) == (ext, [])
  {
    assert RFind(ext, '.') == 0;
    assert !HasNonDot(ext, RFind(ext, '/') + 1, 0);
  }

  const AudioExtensions: seq<string> := [".wav", ".mp3", ".flac", ".m4a", ".ogg"]

  /** The audio check of /transcribe: the lower-cased extension is one of the five formats. */
  predicate AudioExtensionAccepted(filename: string) {
    Lower(SplitExt(filename).1) in AudioExtensions
  }

  /**
   * /transcribe's validation, the same in both servers: 400 for an empty
   * name or an extension outside the five formats; None lets the request
   * through.
   */
  function AudioNameCheck(filename: string): (status: Option<nat>)
    ensures status.None? <==> filename != [] && AudioExtensionAccepted(filename)
    ensures status.Some? ==> status.value == 400
  {
    if filename == [] then Some(400)
    else if !AudioExtensionAccepted(filename) then Some(400)
    else None
  }

  /** A name is accepted exactly when its own extension, in any case, is one of the five formats. */
  lemma AudioNameByExtension(root: string, ext: string)
    requires IsRoot(root) && IsExtension(ext)
    ensures AudioNameCheck(root + ext).None? <==> Lower(ext) in AudioExtensions
  {
    SplitExtJoin(root, ext);
  }

  /** A name without any extension, or one that is only an extension, is refused. */
  lemma AudioNameWithoutExtensionRefused(name: string)
    requires SplitExt(name).1 == []
    ensures AudioNameCheck(name) == Some(400)
  {
    assert Lower([]) == [];
  }

  /** The reply to a MIDI upload: the name it was stored under, or the status of the refusal. */
  datatype UploadReply = Stored(filename: string) | Refused(status: nat)
}
