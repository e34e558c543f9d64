/**
  The parts of Python's `posixpath` module the monitor uses on event paths:
  `basename`, `splitext`, and the `rsplit('/', 1)[0]` idiom that takes the text
  before the last separator.
 */
module PosixPath {
  import opened Strings

  /** `os.path.basename(p)`: everything after the last `/`. */
  function Basename(p: string): (b: string)
    ensures '/' !in b
    ensures |b| <= |p| && b == p[|p| - |b|..]
    ensures |b| < |p| ==> p[|p| - |b| - 1] == '/'
  {
    p[LastIndexOf(p, '/') + 1..]
  }

  /** `p.rsplit('/', 1)[0]`: the text before the last `/`, or all of `p` when it has none. */
  function RSplitHead(p: string): (h: string)
    ensures '/' in p ==> p == h + "/" + Basename(p)
    ensures '/' !in p ==> h == p
  {
    var i := LastIndexOf(p, '/');
    if i < 0 then p else p[..i]
  }

  predicate AllDots(s: string) {
    forall i :: 0 <= i < |s| ==> s[i] == '.'
  }

  /** What `splitext` can return as an extension: nothing, or a dot followed by neither `/` nor `.`. */
  predicate IsExtension(e: string) {
    e == "" || (e[0] == '.' && forall i :: 0 <= i < |e| ==> e[i] != '/' && (i > 0 ==> e[i] != '.'))
  }

  /**
    `os.path.splitext(p)`: the extension runs from the last `.` of the final
    component to the end, unless everything before that dot in the component is
    dots (a leading-dot name such as `.bashrc` has no extension).
   */
  function SplitExt(p: string): (r: (string, string))
    ensures r.0 + r.1 == p
    ensures IsExtension(r.1)
  {
    var sepIndex := LastIndexOf(p, '/');
    var dotIndex := LastIndexOf(p, '.');
    if dotIndex > sepIndex && !AllDots(p[sepIndex + 1..dotIndex]) then
      TailIsExtension(p, sepIndex, dotIndex);
      (p[..dotIndex], p[dotIndex..])
    else
      assert p + "" == p;
      (p, "")
  }

  lemma {:induction false} TailIsExtension(p: string, sepIndex: int, dotIndex: int)
    requires sepIndex == LastIndexOf(p, '/') && dotIndex == LastIndexOf(p, '.')
    requires dotIndex > sepIndex
    ensures p[..dotIndex] + p[dotIndex..] == p
    ensures IsExtension(p[dotIndex..])
  {
  }

  /** The extension part of `splitext`. */
  function Extension(p: string): string {
    SplitExt(p).1
  }

  /** `rfind` on a concatenation looks in the right part first. */
  lemma {:induction false} LastIndexOfConcat(a: string, b: string, c: char)
    ensures LastIndexOf(a + b, c) ==
      if LastIndexOf(b, c) >= 0 then |a| + LastIndexOf(b, c) else LastIndexOf(a, c)
    decreases |b|
  {
    if |b| > 0 {
      var s := a + b;
      assert s[..|s| - 1] == a + b[..|b| - 1];
      if b[|b| - 1] != c {
        LastIndexOfConcat(a, b[..|b| - 1], c);
      }
    } else {
      assert a + b == a;
    }
  }

  lemma {:induction false} Absent(s: string, c: char)
    requires c !in s
    ensures LastIndexOf(s, c) == -1
  {
  }

  /** A directory part: empty, or ending with the separator. */
  predicate IsDirPrefix(dir: string) {
    dir == "" || dir[|dir| - 1] == '/'
  }

  /** The last `/` of `dir + name` is the one that ends `dir`. */
  lemma {:induction false} LastSlash(dir: string, name: string)
    requires IsDirPrefix(dir) && '/' !in name
    ensures LastIndexOf(dir + name, '/') == |dir| - 1
  {
    Absent(name, '/');
    LastIndexOfConcat(dir, name, '/');
  }

  /** The basename of a directory joined with a name is that name. */
  lemma {:induction false} BasenameOfJoin(dir: string, name: string)
    requires IsDirPrefix(dir) && '/' !in name
    ensures Basename(dir + name) == name
  {
    LastSlash(dir, name);
    assert (dir + name)[|dir|..] == name;
  }

  /** Joining `d + "/"` to a name: the head before the last `/` is `d`. */
  lemma {:induction false} RSplitHeadOfJoin(d: string, name: string)
    requires '/' !in name
    ensures RSplitHead(d + "/" + name) == d
  {
    LastSlash(d + "/", name);
    assert d + "/" + name == (d + "/") + name;
    assert (d + "/" + name)[..|d|] == d;
  }

  /**
    A name `stem.ext`, where the stem is not made of dots alone, has extension
    `.ext` whatever directory it is in.
   */
  lemma {:induction false} ExtensionOfName(dir: string, stem: string, ext: string)
    requires IsDirPrefix(dir) && '/' !in stem && '/' !in ext && '.' !in ext
    requires !AllDots(stem)
    ensures Extension(dir + stem + "." + ext) == "." + ext
  {
    var p := dir + stem + "." + ext;
    var dotIndex := |dir| + |stem|;
    SlashAndDotOfName(dir, stem, ext);
    assert p[|dir|..dotIndex] == stem;
    assert p[dotIndex..] == "." + ext;
  }

  lemma {:induction false} SlashAndDotOfName(dir: string, stem: string, ext: string)
    requires IsDirPrefix(dir) && '/' !in stem && '/' !in ext && '.' !in ext
    ensures LastIndexOf(dir + stem + "." + ext, '/') == |dir| - 1
    ensures LastIndexOf(dir + stem + "." + ext, '.') == |dir| + |stem|
  {
    SlashOfName(dir, stem, ext);
    DotOfName(dir + stem, ext);
  }

  lemma {:induction false} SlashOfName(dir: string, stem: string, ext: string)
    requires IsDirPrefix(dir) && '/' !in stem && '/' !in ext
    ensures LastIndexOf(dir + stem + "." + ext, '/') == |dir| - 1
  {
    var name := stem + "." + ext;
    assert forall i :: 0 <= i < |name| ==> name[i] != '/' by {
      forall i | 0 <= i < |name| ensures name[i] != '/' {
        if i < |stem| { assert name[i] == stem[i]; }
        else if i > |stem| { assert name[i] == ext[i - |stem| - 1]; }
      }
    }
    assert dir + stem + "." + ext == dir + name;
    LastSlash(dir, name);
  }

  lemma {:induction false} DotOfName(front: string, ext: string)
    requires '.' !in ext
    ensures LastIndexOf(front + "." + ext, '.') == |front|
  {
    assert front + "." + ext == front + ("." + ext);
    DotStartsExtension(ext);
    LastIndexOfConcat(front, "." + ext, '.');
  }

  lemma {:induction false} DotStartsExtension(ext: string)
    requires '.' !in ext
    ensures LastIndexOf("." + ext, '.') == 0
  {
    Absent(ext, '.');
    LastIndexOfConcat(".", ext, '.');
  }

  /** A name that starts with dots and has no other dot has no extension. */
  lemma {:induction false} NoExtensionAfterLeadingDots(dir: string, dots: string, name: string)
    requires IsDirPrefix(dir) && '/' !in dots && '/' !in name && '.' !in name
    requires AllDots(dots)
    ensures Extension(dir + dots + name) == ""
  {
    var p := dir + dots + name;
    assert p == dir + (dots + name);
    LastSlash(dir, dots + name);
    assert p == (dir + dots) + name;
    Absent(name, '.');
    LastIndexOfConcat(dir + dots, name, '.');
    LastIndexOfConcat(dir, dots, '.');
    var dotIndex := LastIndexOf(p, '.');
    if dotIndex > |dir| - 1 {
      assert p[|dir|..dotIndex] == dots[..dotIndex - |dir|];
      assert AllDots(p[|dir|..dotIndex]);
    }
  }
}
