/**
  What each `FileChangeHandler` callback sends: the message text, title,
  priority and tags for a created, modified, deleted or moved path. The
  timestamp is the wall-clock text the callback reads, taken as an input.
 */
module Events {
  import opened Options
  import opened Strings
  import opened PosixPath
  import opened Payload

  /** The arrow between the two names of a rename title. */
  const Arrow: string := " \U{2192} "

  /**
    The title of a move: a rename, naming both basenames, when the text before
    the last `/` is the same in both paths; a move otherwise.
   */
  function MoveTitle(srcPath: string, destPath: string): (title: string)
    ensures title == "File Moved" <==> RSplitHead(srcPath) != RSplitHead(destPath)
  {
    if RSplitHead(srcPath) == RSplitHead(destPath)
    then "File Renamed: " + Basename(srcPath) + Arrow + Basename(destPath)
    else "File Moved"
  }

  /**
    The `on_created` message. For a path, size text and timestamp on one line
    each it has four lines, the third of them the `Size:` line.
   */
  function CreatedMessage(path: string, fileSize: string, timestamp: string): (m: string)
    ensures '\n' !in path && '\n' !in fileSize && '\n' !in timestamp ==>
            Lines(m) == ["File created: " + Basename(path), "Location: " + path, "Size: " + fileSize, "Time: " + timestamp]
  {
    var name, location, size, time := "File created: " + Basename(path), "Location: " + path, "Size: " + fileSize, "Time: " + timestamp;
    var m := name + "\n" + location + "\n" + size + "\n" + time;
    if '\n' in path || '\n' in fileSize || '\n' in timestamp then m
    else
      BasenameIsOneLine(path);
      SplitFour('\n', m, name, location, size, time);
      m
  }

  /** The `on_modified` message: the same four lines as a created one, led by `File modified:`. */
  function ModifiedMessage(path: string, fileSize: string, timestamp: string): (m: string)
    ensures '\n' !in path && '\n' !in fileSize && '\n' !in timestamp ==>
            Lines(m) == ["File modified: " + Basename(path), "Location: " + path, "Size: " + fileSize, "Time: " + timestamp]
  {
    var name, location, size, time := "File modified: " + Basename(path), "Location: " + path, "Size: " + fileSize, "Time: " + timestamp;
    var m := name + "\n" + location + "\n" + size + "\n" + time;
    if '\n' in path || '\n' in fileSize || '\n' in timestamp then m
    else
      BasenameIsOneLine(path);
      SplitFour('\n', m, name, location, size, time);
      m
  }

  /** The `on_deleted` message: three lines for one-line inputs, and no `Size:` line. */
  function DeletedMessage(path: string, timestamp: string): (m: string)
    ensures '\n' !in path && '\n' !in timestamp ==>
            Lines(m) == ["File deleted: " + Basename(path), "Location: " + path, "Time: " + timestamp]
    ensures '\n' !in path && '\n' !in timestamp ==>
            forall line :: line in Lines(m) ==> !StartsWith(line, "Size: ")
  {
    var name, location, time := "File deleted: " + Basename(path), "Location: " + path, "Time: " + timestamp;
    var m := name + "\n" + location + "\n" + time;
    if '\n' in path || '\n' in timestamp then m
    else
      BasenameIsOneLine(path);
      SplitThree('\n', m, name, location, time);
      NoSizeLine([name, location, time]);
      m
  }

  /** The `on_moved` message: four lines for one-line inputs, from and to, and no `Size:` line. */
  function MovedMessage(srcPath: string, destPath: string, timestamp: string): (m: string)
    ensures '\n' !in srcPath && '\n' !in destPath && '\n' !in timestamp ==>
            Lines(m) == ["File moved:", "From: " + srcPath, "To: " + destPath, "Time: " + timestamp]
    ensures '\n' !in srcPath && '\n' !in destPath && '\n' !in timestamp ==>
            forall line :: line in Lines(m) ==> !StartsWith(line, "Size: ")
  {
    var head, from, to, time := "File moved:", "From: " + srcPath, "To: " + destPath, "Time: " + timestamp;
    var m := head + "\n" + from + "\n" + to + "\n" + time;
    if '\n' in srcPath || '\n' in destPath || '\n' in timestamp then m
    else
      SplitFour('\n', m, head, from, to, time);
      NoSizeLine([head, from, to, time]);
      m
  }

  /**
    A notification as the four callbacks send it: a title, tags and a non-zero
    priority level, and none of click, attach or actions.
   */
  predicate IsEventNotification(n: Notification) {
    && Truthy(n.title) && Truthy(n.tags) && n.priority.Level? && n.priority.n != 0
    && n.click == None && n.attach == None && n.actions == None
  }

  /** The `send_notification` call of `on_created`. */
  function CreatedNotification(path: string, fileSize: string, timestamp: string): (n: Notification)
    ensures IsEventNotification(n) && NumericPriority(n.priority) == Some(3)
  {
    Notification(CreatedMessage(path, fileSize, timestamp), Some("File Created"), Level(3),
                 Some("file_folder,new"), None, None, None)
  }

  /** The `send_notification` call of `on_modified`. */
  function ModifiedNotification(path: string, fileSize: string, timestamp: string): (n: Notification)
    ensures IsEventNotification(n) && NumericPriority(n.priority) == Some(2)
  {
    Notification(ModifiedMessage(path, fileSize, timestamp), Some("File Modified"), Level(2),
                 Some("pencil"), None, None, None)
  }

  /** The `send_notification` call of `on_deleted`. */
  function DeletedNotification(path: string, timestamp: string): (n: Notification)
    ensures IsEventNotification(n) && NumericPriority(n.priority) == Some(4)
  {
    Notification(DeletedMessage(path, timestamp), Some("File Deleted"), Level(4),
                 Some("wastebasket,warning"), None, None, None)
  }

  /** The `send_notification` call of `on_moved`. */
  function MovedNotification(srcPath: string, destPath: string, timestamp: string): (n: Notification)
    ensures IsEventNotification(n) && NumericPriority(n.priority) == Some(3)
  {
    Notification(MovedMessage(srcPath, destPath, timestamp), Some(MoveTitle(srcPath, destPath)), Level(3),
                 Some("arrow_right"), None, None, None)
  }

  /** The payload of a per-event notification: these five keys and no others. */
  ghost predicate EventPayload(p: Payload, topic: string, message: string, title: string,
                               priority: int, tags: string) {
    && p.Keys == {Topic, Message, Title, Priority, Tags}
    && p[Topic] == JString(topic)
    && p[Message] == JString(message)
    && p[Title] == JString(title)
    && p[Priority] == JInt(priority)
    && p[Tags] == JList([tags])
  }

  lemma {:induction false} PayloadOfEvent(p: Payload, topic: string, n: Notification)
    requires Publishes(p, topic, n) && IsEventNotification(n)
    ensures EventPayload(p, topic, n.message, n.title.value, n.priority.n, n.tags.value)
  {
    assert p.Keys == {Topic, Message, Title, Priority, Tags} by {
      forall k | k in p ensures k in {Topic, Message, Title, Priority, Tags} {
        assert k != Click && k != Attach && k != Actions;
      }
    }
  }

  /**
    Each kind of event is announced by one payload with a fixed title, priority
    and tag string: created 3 `file_folder,new`, modified 2 `pencil`, deleted 4
    `wastebasket,warning`, moved 3 `arrow_right`.
   */
  lemma {:induction false} EventPayloads(p: Payload, topic: string, path: string, destPath: string,
                                         fileSize: string, timestamp: string)
    ensures Publishes(p, topic, CreatedNotification(path, fileSize, timestamp)) ==>
      EventPayload(p, topic, CreatedMessage(path, fileSize, timestamp), "File Created", 3, "file_folder,new")
    ensures Publishes(p, topic, ModifiedNotification(path, fileSize, timestamp)) ==>
      EventPayload(p, topic, ModifiedMessage(path, fileSize, timestamp), "File Modified", 2, "pencil")
    ensures Publishes(p, topic, DeletedNotification(path, timestamp)) ==>
      EventPayload(p, topic, DeletedMessage(path, timestamp), "File Deleted", 4, "wastebasket,warning")
    ensures Publishes(p, topic, MovedNotification(path, destPath, timestamp)) ==>
      EventPayload(p, topic, MovedMessage(path, destPath, timestamp), MoveTitle(path, destPath), 3, "arrow_right")
  {
    if Publishes(p, topic, CreatedNotification(path, fileSize, timestamp)) {
      PayloadOfEvent(p, topic, CreatedNotification(path, fileSize, timestamp));
    }
    if Publishes(p, topic, ModifiedNotification(path, fileSize, timestamp)) {
      PayloadOfEvent(p, topic, ModifiedNotification(path, fileSize, timestamp));
    }
    if Publishes(p, topic, DeletedNotification(path, timestamp)) {
      PayloadOfEvent(p, topic, DeletedNotification(path, timestamp));
    }
    if Publishes(p, topic, MovedNotification(path, destPath, timestamp)) {
      PayloadOfEvent(p, topic, MovedNotification(path, destPath, timestamp));
    }
  }

  /** A move inside one directory is a rename, titled with the old and the new name. */
  lemma {:induction false} RenameWithinDirectory(dir: string, oldName: string, newName: string)
    requires '/' !in oldName && '/' !in newName
    ensures MoveTitle(dir + "/" + oldName, dir + "/" + newName) == "File Renamed: " + oldName + Arrow + newName
  {
    RSplitHeadOfJoin(dir, oldName);
    RSplitHeadOfJoin(dir, newName);
    assert dir + "/" + oldName == (dir + "/") + oldName;
    assert dir + "/" + newName == (dir + "/") + newName;
    BasenameOfJoin(dir + "/", oldName);
    BasenameOfJoin(dir + "/", newName);
  }

  /** A move between two different directories is titled "File Moved". */
  lemma {:induction false} MoveAcrossDirectories(srcDir: string, destDir: string, srcName: string, destName: string)
    requires '/' !in srcName && '/' !in destName && srcDir != destDir
    ensures MoveTitle(srcDir + "/" + srcName, destDir + "/" + destName) == "File Moved"
  {
    RSplitHeadOfJoin(srcDir, srcName);
    RSplitHeadOfJoin(destDir, destName);
  }

  /**
    Paths without any `/` are their own head, so a rename between two different
    bare names is titled "File Moved".
   */
  lemma BareNamesAreMoves(srcName: string, destName: string)
    requires '/' !in srcName && '/' !in destName && srcName != destName
    ensures MoveTitle(srcName, destName) == "File Moved"
  {
  }

  /** Renaming `/x/a.txt` to `/x/b.txt` is titled with both names. */
  lemma RenameExample()
    ensures MoveTitle("/x/a.txt", "/x/b.txt") == "File Renamed: a.txt" + Arrow + "b.txt"
  {
    assert "/x" + "/" + "a.txt" == "/x/a.txt";
    assert "/x" + "/" + "b.txt" == "/x/b.txt";
    assert '/' !in "a.txt" && '/' !in "b.txt";
    RenameWithinDirectory("/x", "a.txt", "b.txt");
  }

  /** Moving `/x/a.txt` to `/y/a.txt` is titled "File Moved". */
  lemma MoveExample()
    ensures MoveTitle("/x/a.txt", "/y/a.txt") == "File Moved"
  {
    assert "/x" + "/" + "a.txt" == "/x/a.txt";
    assert "/y" + "/" + "a.txt" == "/y/a.txt";
    assert '/' !in "a.txt" && "/x" != "/y";
    MoveAcrossDirectories("/x", "/y", "a.txt", "a.txt");
  }

  /** The lines of a message. */
  function Lines(message: string): seq<string> {
    Split(message, '\n')
  }

  /** Lines that start with `F`, `L` or `T` are not `Size:` lines. */
  lemma NoSizeLine(lines: seq<string>)
    requires forall i :: 0 <= i < |lines| ==> |lines[i]| > 0 && lines[i][0] in "FLT"
    ensures forall line :: line in lines ==> !StartsWith(line, "Size: ")
  {
    forall line | line in lines ensures !StartsWith(line, "Size: ") {
      assert line[0] != 'S';
    }
  }

  lemma BasenameIsOneLine(path: string)
    requires '\n' !in path
    ensures '\n' !in Basename(path)
  {
    var name := Basename(path);
    assert forall i :: 0 <= i < |name| ==> name[i] == path[|path| - |name| + i];
  }
}
