/** The name under which `upload_bet` stores an uploaded image
    (`generate_secure_filename`): a timestamp, a fresh unique id and the
    original extension when it is safe. */
module BetFiles {
  import opened Text
  import opened Money

  /** Index of the last `c` in `s`, or -1 (`s.rfind(c)`). */
  function LastIndexOf(s: string, c: char): (r: int)
    ensures -1 <= r < |s|
    ensures r >= 0 ==> s[r] == c
    ensures forall i :: r < i < |s| ==> s[i] != c
    decreases |s|
  {
    if |s| == 0 then -1
    else if s[|s| - 1] == c then |s| - 1
    else LastIndexOf(s[..|s| - 1], c)
  }

  /** The final component of a POSIX path (`PurePath(s).name`): the last
      part between slashes that is neither empty nor `.`, or "" when there
      is none. */
  function PathName(s: string): (r: string)
    ensures forall i :: 0 <= i < |r| ==> r[i] != '/'
    decreases |s|
  {
    var k := LastIndexOf(s, '/');
    var last := s[k + 1..];
    if last != "" && last != "." then last
    else if k < 0 then ""
    else PathName(s[..k])
  }

  /** `r` sits in `s` as a whole path component ending at index `j`: it
      is bounded by slashes or by the ends of `s` on both sides. */
  predicate Component(s: string, r: string, j: int) {
    |r| <= j <= |s| && r == s[j - |r|..j] &&
    (j == |s| || s[j] == '/') && (j == |r| || s[j - |r| - 1] == '/')
  }

  /** Where the name of `s` ends in `s`: found the way `PathName` finds
      the name. */
  function NameEnd(s: string): int
    decreases |s|
  {
    var k := LastIndexOf(s, '/');
    var last := s[k + 1..];
    if last != "" && last != "." then |s|
    else if k < 0 then 0
    else NameEnd(s[..k])
  }

  /** The name is never ".", and a non-empty name is one whole component
      of the path. */
  lemma PathNameComponent(s: string)
    ensures PathName(s) != "."
    ensures PathName(s) != "" ==> exists j {:trigger Component(s, PathName(s), j)} :: Component(s, PathName(s), j)
  {
    NameEndsName(s);
  }

  /** The non-empty name ends at `NameEnd(s)`, bounded by slashes or the
      ends of the path. */
  lemma {:induction false} NameEndsName(s: string)
    ensures PathName(s) != "."
    ensures PathName(s) != "" ==> Component(s, PathName(s), NameEnd(s))
    decreases |s|
  {
    var k := LastIndexOf(s, '/');
    if s[k + 1..] != "" && s[k + 1..] != "." {
      LastPartName(s, k);
    } else if k < 0 {
      NoSlashName(s, k);
    } else {
      NameEndsName(s[..k]);
      BeforeSlashName(s, k);
    }
  }

  /** The cases of `NameEndsName`, one unfolding each: the part after the
      last slash when it is neither empty nor "." ... */
  lemma LastPartName(s: string, k: int)
    requires k == LastIndexOf(s, '/') && s[k + 1..] != "" && s[k + 1..] != "."
    ensures PathName(s) != "." && Component(s, PathName(s), NameEnd(s))
  {
    assert PathName(s) == s[k + 1..] && NameEnd(s) == |s|;
    LastPartComponent(s, k);
  }

  /** ... else "" without a slash ... */
  lemma NoSlashName(s: string, k: int)
    requires k == LastIndexOf(s, '/') && !(s[k + 1..] != "" && s[k + 1..] != ".") && k < 0
    ensures PathName(s) == ""
  {
  }

  /** ... else the name of what comes before the last slash, ending where
      it ends there. */
  lemma BeforeSlashName(s: string, k: int)
    requires k == LastIndexOf(s, '/') && !(s[k + 1..] != "" && s[k + 1..] != ".") && k >= 0
    requires PathName(s[..k]) != "."
    requires PathName(s[..k]) != "" ==> Component(s[..k], PathName(s[..k]), NameEnd(s[..k]))
    ensures PathName(s) != "."
    ensures PathName(s) != "" ==> Component(s, PathName(s), NameEnd(s))
  {
    var t := s[..k];
    assert PathName(s) == PathName(t) && NameEnd(s) == NameEnd(t);
    if PathName(t) != "" {
      ComponentWidens(s, t, k, PathName(t), NameEnd(t));
    }
  }

  /** What follows the last slash (or all of `s`) runs from just after
      it to the end of `s`. */
  lemma LastPartBounded(s: string, k: int)
    requires -1 <= k < |s|
    ensures k + 1 == |s| - |s[k + 1..]| && s[k + 1..] == s[k + 1..|s|]
  {
  }

  /** Hence that part is a component ending the path. */
  lemma LastPartComponent(s: string, k: int)
    requires -1 <= k < |s| && (k >= 0 ==> s[k] == '/')
    ensures Component(s, s[k + 1..], |s|)
  {
    LastPartBounded(s, k);
  }

  /** A component of the part before the slash at `k` is a component of
      the whole path. */
  lemma ComponentWidens(s: string, t: string, k: int, r: string, j: int)
    requires 0 <= k < |s| && s[k] == '/' && t == s[..k]
    requires Component(t, r, j)
    ensures Component(s, r, j)
  {
    assert r == s[j - |r|..j];
  }

  /** `PurePath.suffix` of a name: from its last dot, when that dot is
      neither the first nor the last character. */
  function Suffix(name: string): (r: string)
    ensures r == "" || (|r| >= 2 && r[0] == '.' && forall i :: 1 <= i < |r| ==> r[i] != '.')
  {
    var i := LastIndexOf(name, '.');
    if 0 < i < |name| - 1 then name[i..] else ""
  }

  /** A suffix is a tail of the name, and a name has one exactly when its
      last dot is neither its first nor its last character. */
  lemma SuffixLastDot(name: string)
    ensures Suffix(name) != "" ==> |Suffix(name)| < |name| && Suffix(name) == name[|name| - |Suffix(name)|..]
    ensures Suffix(name) != "" <==>
            exists i :: 0 < i < |name| - 1 && name[i] == '.' && forall j :: i < j < |name| ==> name[j] != '.'
  {
    var k := LastIndexOf(name, '.');
    if 0 < k < |name| - 1 {
      assert name[k] == '.' && forall j :: k < j < |name| ==> name[j] != '.';
    }
  }

  /** `s.isalnum()`: non-empty and every character a letter or digit. */
  predicate AlnumString(s: string) {
    |s| > 0 && forall i :: 0 <= i < |s| ==> IsAlnum(s[i])
  }

  /** The extension `generate_secure_filename` keeps: the lower-cased
      suffix when it is alphanumeric once its dots are removed, else "". */
  function SafeExtension(originalFilename: string): string {
    var ext := if originalFilename != "" then Lower(Suffix(PathName(originalFilename))) else "";
    if ext != "" && !AlnumString(Remove(ext, '.')) then "" else ext
  }

  /** `int(x)`: truncation toward zero. */
  function Trunc(x: real): (n: int)
    ensures Abs(n as real) <= Abs(x) < Abs(n as real) + 1.0
    ensures (n >= 0) == (x > -1.0)
  {
    if x >= 0.0 then x.Floor else -((-x).Floor)
  }

  /** `generate_secure_filename(original)` at clock reading `now` (seconds
      since the epoch) with `hex` standing for `uuid.uuid4().hex`. */
  function SecureFilename(originalFilename: string, now: real, hex: string): string {
    IntToString(Trunc(now)) + "_" + hex + SafeExtension(originalFilename)
  }

  /** Removing one leading dot from a string with no other dot. */
  lemma RemoveLeadingDot(ext: string)
    requires |ext| >= 1 && ext[0] == '.' && forall i :: 1 <= i < |ext| ==> ext[i] != '.'
    ensures Remove(ext, '.') == ext[1..]
  {
    RemoveAbsent(ext[1..], '.');
  }

  lemma {:induction false} RemoveAbsent(s: string, c: char)
    requires forall i :: 0 <= i < |s| ==> s[i] != c
    ensures Remove(s, c) == s
    decreases |s|
  {
    if |s| > 0 {
      RemoveAbsent(s[1..], c);
    }
  }

  /** Lower-casing keeps letters letters, digits digits and leaves dots alone. */
  lemma LowerKeepsClasses(s: string)
    ensures forall i :: 0 <= i < |s| ==> (IsAlnum(Lower(s)[i]) <==> IsAlnum(s[i]))
    ensures forall i :: 0 <= i < |s| ==> (Lower(s)[i] == '.' <==> s[i] == '.')
  {
  }

  /** The kept extension is either nothing or a dot followed by lower-case
      letters and digits; it is kept exactly when the original name's
      suffix is a dot and alphanumerics, and it is then that suffix
      lower-cased. */
  lemma SafeExtensionMeaning(originalFilename: string)
    ensures var ext := SafeExtension(originalFilename);
            ext == "" ||
            (|ext| >= 2 && ext[0] == '.' && forall i :: 1 <= i < |ext| ==> IsAlnum(ext[i]) && !('A' <= ext[i] <= 'Z'))
    ensures var sfx := Suffix(PathName(originalFilename));
            SafeExtension(originalFilename) != "" <==> (sfx != "" && AlnumString(sfx[1..]))
    ensures SafeExtension(originalFilename) != "" ==>
              SafeExtension(originalFilename) == Lower(Suffix(PathName(originalFilename)))
  {
    var sfx := Suffix(PathName(originalFilename));
    if originalFilename == "" {
      assert PathName(originalFilename) == "";
    } else if sfx != "" {
      LoweredSuffix(sfx);
    }
  }

  /** A suffix lower-cased keeps its leading dot and its length, loses its
      dot to `Remove`, and is alphanumeric after the dot exactly when the
      suffix is. */
  lemma LoweredSuffix(sfx: string)
    requires |sfx| >= 2 && sfx[0] == '.' && forall i :: 1 <= i < |sfx| ==> sfx[i] != '.'
    ensures var ext := Lower(sfx);
            |ext| == |sfx| && ext[0] == '.' && Remove(ext, '.') == ext[1..] &&
            (AlnumString(ext[1..]) <==> AlnumString(sfx[1..])) &&
            forall i :: 1 <= i < |ext| ==> !('A' <= ext[i] <= 'Z')
  {
    var ext := Lower(sfx);
    LowerKeepsClasses(sfx);
    RemoveLeadingDot(ext);
    assert ext[1..] == Lower(sfx[1..]);
    LowerKeepsClasses(sfx[1..]);
  }

  /** The kept extension holds letters, digits and a single leading dot. */
  lemma SafeExtensionChars(originalFilename: string)
    ensures var ext := SafeExtension(originalFilename);
            forall i :: 0 <= i < |ext| ==> (IsAlnum(ext[i]) || ext[i] == '.') && (ext[i] == '.' ==> i == 0)
  {
    SafeExtensionMeaning(originalFilename);
  }

  /** A printed integer holds digits and at most a minus sign. */
  lemma IntToStringChars(n: int)
    ensures var p := IntToString(n);
            forall i :: 0 <= i < |p| ==> IsAlnum(p[i]) || p[i] == '-'
  {
    if n < 0 {
      var q := NatToString(-n);
      assert IntToString(n) == "-" + q;
      assert forall i :: 0 <= i < |q| ==> IsDigit(q[i]);
    }
  }

  /** With a hexadecimal (or any alphanumeric) unique part, the stored name
      is a single path component made of letters, digits, `_` and `-`, with
      a dot only where the kept extension begins: it cannot climb out of
      the upload directory. */
  lemma SecureFilenameIsSafe(originalFilename: string, now: real, hex: string)
    requires forall i :: 0 <= i < |hex| ==> IsAlnum(hex[i])
    ensures var r := SecureFilename(originalFilename, now, hex);
            forall i :: 0 <= i < |r| ==> IsAlnum(r[i]) || r[i] == '_' || r[i] == '-' || r[i] == '.'
    ensures var r := SecureFilename(originalFilename, now, hex);
            forall i :: 0 <= i < |r| && r[i] == '.' ==> i == |r| - |SafeExtension(originalFilename)|
  {
    IntToStringChars(Trunc(now));
    SafeExtensionChars(originalFilename);
    JoinedNameChars(IntToString(Trunc(now)), hex, SafeExtension(originalFilename));
  }

  /** `p + "_" + hex + ext` keeps the characters of its parts, and its only
      dot can be the first character of `ext`. */
  lemma JoinedNameChars(p: string, hex: string, ext: string)
    requires forall i :: 0 <= i < |p| ==> IsAlnum(p[i]) || p[i] == '-'
    requires forall i :: 0 <= i < |hex| ==> IsAlnum(hex[i])
    requires forall i :: 0 <= i < |ext| ==> (IsAlnum(ext[i]) || ext[i] == '.') && (ext[i] == '.' ==> i == 0)
    ensures var r := p + "_" + hex + ext;
            forall i :: 0 <= i < |r| ==> IsAlnum(r[i]) || r[i] == '_' || r[i] == '-' || r[i] == '.'
    ensures var r := p + "_" + hex + ext;
            forall i :: 0 <= i < |r| && r[i] == '.' ==> i == |r| - |ext|
  {
    var pre := p + "_" + hex;
    var r := pre + ext;
    forall i | 0 <= i < |pre|
      ensures IsAlnum(pre[i]) || pre[i] == '_' || pre[i] == '-'
    {
      if i < |p| {
        assert pre[i] == p[i];
      } else if i > |p| {
        assert pre[i] == hex[i - |p| - 1];
      }
    }
    forall i | 0 <= i < |r|
      ensures IsAlnum(r[i]) || r[i] == '_' || r[i] == '-' || r[i] == '.'
      ensures r[i] == '.' ==> i == |r| - |ext|
    {
      if i < |pre| {
        assert r[i] == pre[i];
      } else {
        assert r[i] == ext[i - |pre|];
      }
    }
  }
}
