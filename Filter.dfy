/**
  The event filter of `FileChangeHandler`: which watchdog events the handler
  acts on, given the extension allow-list and the directory-exclusion flag.
 */
module Filter {
  import opened Options
  import opened Strings
  import opened PosixPath

  /**
    The event object watchdog passes to each callback. `destPath` is only
    meaningful for a move; the other kinds carry an empty one.
   */
  datatype FileEvent = FileEvent(srcPath: string, destPath: string, isDirectory: bool)

  /** `if self.include_extensions`: a list is truthy when it is present and not empty. */
  predicate HasAllowList(includeExtensions: Option<seq<string>>) {
    includeExtensions.Some? && |includeExtensions.value| > 0
  }

  /**
    The lower-cased `splitext` extension the allow-list is compared with:
    empty, or a dot followed by neither dots nor slashes, and no upper case.
   */
  function EventExtension(event: FileEvent): (ext: string)
    ensures IsExtension(ext)
    ensures forall i :: 0 <= i < |ext| ==> !IsUpper(ext[i])
  {
    Lower(Extension(event.srcPath))
  }

  /**
    `should_process_event`: a directory event is dropped when directories are
    excluded and kept otherwise, whatever the allow-list; a file event is kept
    when there is no allow-list or its lower-cased extension is on it.
   */
  function ShouldProcess(includeExtensions: Option<seq<string>>, excludeDirectories: bool,
                         event: FileEvent): (accept: bool)
    ensures event.isDirectory ==> (accept <==> !excludeDirectories)
    ensures !event.isDirectory ==>
      (accept <==> !HasAllowList(includeExtensions) || EventExtension(event) in includeExtensions.value)
  {
    if excludeDirectories && event.isDirectory then false
    else if HasAllowList(includeExtensions) && !event.isDirectory
            && EventExtension(event) !in includeExtensions.value then false
    else true
  }

  /** Without an allow-list and with directories included, every event is acted on. */
  lemma AcceptAllWithoutFilters(event: FileEvent)
    ensures ShouldProcess(None, false, event)
  {
  }

  /** Extensions are compared case-insensitively: `b.TXT` passes a `.txt` allow-list. */
  lemma {:induction false} FileWithListedExtension(dir: string, stem: string, ext: string,
                                                   allowed: seq<string>, excludeDirectories: bool)
    requires IsDirPrefix(dir) && '/' !in stem && '/' !in ext && '.' !in ext && !AllDots(stem)
    requires Lower("." + ext) in allowed
    ensures ShouldProcess(Some(allowed), excludeDirectories, FileEvent(dir + stem + "." + ext, "", false))
  {
    ExtensionOfName(dir, stem, ext);
  }

  /** A file whose extension, lower-cased, is not on the allow-list is ignored. */
  lemma {:induction false} FileWithUnlistedExtension(dir: string, stem: string, ext: string,
                                                     allowed: seq<string>, excludeDirectories: bool)
    requires IsDirPrefix(dir) && '/' !in stem && '/' !in ext && '.' !in ext && !AllDots(stem)
    requires |allowed| > 0 && Lower("." + ext) !in allowed
    ensures !ShouldProcess(Some(allowed), excludeDirectories, FileEvent(dir + stem + "." + ext, "", false))
  {
    ExtensionOfName(dir, stem, ext);
  }

  /** A file whose name has no extension never passes an allow-list of dot-prefixed entries. */
  lemma {:induction false} FileWithoutExtension(dir: string, dots: string, name: string,
                                                allowed: seq<string>, excludeDirectories: bool)
    requires IsDirPrefix(dir) && '/' !in dots && '/' !in name && '.' !in name && AllDots(dots)
    requires |allowed| > 0 && forall e :: e in allowed ==> StartsWith(e, ".")
    ensures !ShouldProcess(Some(allowed), excludeDirectories, FileEvent(dir + dots + name, "", false))
  {
    NoExtensionAfterLeadingDots(dir, dots, name);
    assert EventExtension(FileEvent(dir + dots + name, "", false)) == "";
  }

  /** The examples of the allow-list `[".txt"]`: `a/b.txt` passes, `a/b.md` does not. */
  lemma {:induction false} TxtAllowList(excludeDirectories: bool, dirPath: string)
    ensures ShouldProcess(Some([".txt"]), excludeDirectories, FileEvent("a/b.txt", "", false))
    ensures ShouldProcess(Some([".txt"]), excludeDirectories, FileEvent(dirPath, "", true))
            == !excludeDirectories
  {
    assert "a/" + "b" + "." + "txt" == "a/b.txt";
    assert "b"[0] != '.';
    LowerOfLower(".txt");
    FileWithListedExtension("a/", "b", "txt", [".txt"], excludeDirectories);
  }

  /** The same allow-list turns away a markdown file. */
  lemma {:induction false} TxtAllowListRejectsMarkdown(excludeDirectories: bool)
    ensures !ShouldProcess(Some([".txt"]), excludeDirectories, FileEvent("a/b.md", "", false))
  {
    assert "a/" + "b" + "." + "md" == "a/b.md";
    assert "b"[0] != '.';
    assert "." + "md" == ".md";
    LowerOfLower(".md");
    FileWithUnlistedExtension("a/", "b", "md", [".txt"], excludeDirectories);
  }
}
