/**
  `FileChangeHandler`: the watchdog event handler. It keeps the topic and the
  filter settings it was built with, and every notification it sends goes to
  the relay as one POST. The POST itself is not modelled: `outbox` records, in
  order, each payload handed to it, whatever the relay answers.
 */
module Monitor {
  import opened Options
  import opened Filter
  import opened FileSize
  import opened Payload
  import opened Events
  import Strings

  /** `after` is `before` with one more payload, the one `send_notification` builds for `n` on `topic`. */
  ghost predicate SentOne(before: seq<Payload>, after: seq<Payload>, topic: string, n: Notification) {
    && |after| == |before| + 1
    && after[..|before|] == before
    && Publishes(after[|before|], topic, n)
  }

  /** The notification sent when the handler is created. */
  const StartedNotification: Notification :=
    Notification("Started monitoring folder for changes", Some("Folder Monitoring Started"), Level(3),
                 Some("rocket"), None, None, None)

  /** The notification sent when the operator stops the monitor. */
  const StoppedNotification: Notification :=
    Notification("Folder monitoring stopped by user", Some("Monitoring Stopped"), Level(3),
                 Some("stop_sign"), None, None, None)

  /** The start announcement carries the five keys, with priority 3 and the tag `rocket`. */
  lemma StartedPayload(p: Payload, topic: string)
    requires Publishes(p, topic, StartedNotification)
    ensures EventPayload(p, topic, "Started monitoring folder for changes", "Folder Monitoring Started", 3, "rocket")
  {
    PayloadOfEvent(p, topic, StartedNotification);
  }

  /** The stop announcement carries the five keys, with priority 3 and the tag `stop_sign`. */
  lemma StoppedPayload(p: Payload, topic: string)
    requires Publishes(p, topic, StoppedNotification)
    ensures EventPayload(p, topic, "Folder monitoring stopped by user", "Monitoring Stopped", 3, "stop_sign")
  {
    PayloadOfEvent(p, topic, StoppedNotification);
  }

  class FileChangeHandler {
    const topic: string
    const includeExtensions: Option<seq<string>>
    const excludeDirectories: bool
    /** Every payload posted so far, oldest first. */
    ghost var outbox: seq<Payload>

    /** Every payload went to the handler's own topic. */
    ghost predicate Valid()
      reads this
    {
      forall i :: 0 <= i < |outbox| ==> Topic in outbox[i] && outbox[i][Topic] == JString(topic)
    }

    /** `__init__`: store the settings, then announce that monitoring has started. */
    constructor (topic: string, includeExtensions: Option<seq<string>>, excludeDirectories: bool)
      ensures Valid()
      ensures this.topic == topic && this.includeExtensions == includeExtensions
      ensures this.excludeDirectories == excludeDirectories
      ensures SentOne([], outbox, topic, StartedNotification)
    {
      this.topic := topic;
      this.includeExtensions := includeExtensions;
      this.excludeDirectories := excludeDirectories;
      outbox := [];
      new;
      SendNotification(StartedNotification.message, StartedNotification.title, StartedNotification.priority,
                       StartedNotification.tags, None, None, None);
    }

    /**
      `send_notification`: build the payload and post it. Exactly one payload is
      posted per call; a failed POST is only logged, so it changes nothing else.
     */
    method SendNotification(message: string, title: Option<string>, priority: PriorityArg,
                            tags: Option<string>, click: Option<string>, attach: Option<string>,
                            actions: Option<string>)
      requires Valid()
      modifies this
      ensures Valid()
      ensures SentOne(old(outbox), outbox, topic,
                      Notification(message, title, priority, tags, click, attach, actions))
    {
      var payload := BuildPayload(topic, Notification(message, title, priority, tags, click, attach, actions));
      outbox := outbox + [payload];
    }

    /** `on_created`: one "File Created" notification for an accepted event, nothing otherwise. */
    method OnCreated(event: FileEvent, stat: FileStat, timestamp: string)
      requires Valid()
      modifies this
      ensures Valid()
      ensures !ShouldProcess(includeExtensions, excludeDirectories, event) ==> outbox == old(outbox)
      ensures ShouldProcess(includeExtensions, excludeDirectories, event) ==>
        SentOne(old(outbox), outbox, topic, CreatedNotification(event.srcPath, HumanSize(stat), timestamp))
    {
      if !ShouldProcess(includeExtensions, excludeDirectories, event) {
        return;
      }
      var path := event.srcPath;
      var fileSize := GetFileSize(stat);
      SendNotification(CreatedMessage(path, fileSize, timestamp), Some("File Created"), Level(3),
                       Some("file_folder,new"), None, None, None);
    }

    /** `on_modified`: one "File Modified" notification for an accepted event, nothing otherwise. */
    method OnModified(event: FileEvent, stat: FileStat, timestamp: string)
      requires Valid()
      modifies this
      ensures Valid()
      ensures !ShouldProcess(includeExtensions, excludeDirectories, event) ==> outbox == old(outbox)
      ensures ShouldProcess(includeExtensions, excludeDirectories, event) ==>
        SentOne(old(outbox), outbox, topic, ModifiedNotification(event.srcPath, HumanSize(stat), timestamp))
    {
      if !ShouldProcess(includeExtensions, excludeDirectories, event) {
        return;
      }
      var path := event.srcPath;
      var fileSize := GetFileSize(stat);
      SendNotification(ModifiedMessage(path, fileSize, timestamp), Some("File Modified"), Level(2),
                       Some("pencil"), None, None, None);
    }

    /** `on_deleted`: one "File Deleted" notification, without a size, for an accepted event. */
    method OnDeleted(event: FileEvent, timestamp: string)
      requires Valid()
      modifies this
      ensures Valid()
      ensures !ShouldProcess(includeExtensions, excludeDirectories, event) ==> outbox == old(outbox)
      ensures ShouldProcess(includeExtensions, excludeDirectories, event) ==>
        SentOne(old(outbox), outbox, topic, DeletedNotification(event.srcPath, timestamp))
    {
      if !ShouldProcess(includeExtensions, excludeDirectories, event) {
        return;
      }
      var path := event.srcPath;
      SendNotification(DeletedMessage(path, timestamp), Some("File Deleted"), Level(4),
                       Some("wastebasket,warning"), None, None, None);
    }

    /**
      `on_moved`: one notification titled as a rename or a move for an accepted
      event. The filter looks at the source path only.
     */
    method OnMoved(event: FileEvent, timestamp: string)
      requires Valid()
      modifies this
      ensures Valid()
      ensures !ShouldProcess(includeExtensions, excludeDirectories, event) ==> outbox == old(outbox)
      ensures ShouldProcess(includeExtensions, excludeDirectories, event) ==>
        SentOne(old(outbox), outbox, topic, MovedNotification(event.srcPath, event.destPath, timestamp))
    {
      if !ShouldProcess(includeExtensions, excludeDirectories, event) {
        return;
      }
      var srcPath := event.srcPath;
      var destPath := event.destPath;
      SendNotification(MovedMessage(srcPath, destPath, timestamp), Some(MoveTitle(srcPath, destPath)), Level(3),
                       Some("arrow_right"), None, None, None);
    }
  }

  /**
    A handler that only wants `.pdf` files sees `/watched/report.pdf` created:
    after the start-up notification there is exactly one more payload, on the
    handler's topic, titled "File Created" with priority 3 and the tags
    `file_folder,new`.
   */
  method CreatedPdfScenario(topic: string, stat: FileStat, timestamp: string)
    returns (handler: FileChangeHandler)
    ensures |handler.outbox| == 2
    ensures EventPayload(handler.outbox[1], topic, CreatedMessage("/watched/report.pdf", HumanSize(stat), timestamp),
                         "File Created", 3, "file_folder,new")
  {
    handler := new FileChangeHandler(topic, Some([".pdf"]), true);
    ghost var started := handler.outbox;
    PdfIsAccepted();
    handler.OnCreated(FileEvent("/watched/report.pdf", "", false), stat, timestamp);
    SecondPayload(started, handler.outbox, topic, CreatedNotification("/watched/report.pdf", HumanSize(stat), timestamp));
  }

  /** After the start-up payload and one event payload, the event's is the second of two. */
  lemma {:induction false} SecondPayload(started: seq<Payload>, sent: seq<Payload>, topic: string, n: Notification)
    requires SentOne([], started, topic, StartedNotification) && SentOne(started, sent, topic, n)
    requires Truthy(n.title) && Truthy(n.tags) && n.priority.Level? && n.priority.n != 0
    requires n.click == None && n.attach == None && n.actions == None
    ensures |sent| == 2
    ensures EventPayload(sent[1], topic, n.message, n.title.value, n.priority.n, n.tags.value)
  {
    PayloadOfEvent(sent[1], topic, n);
  }

  lemma PdfIsAccepted()
    ensures ShouldProcess(Some([".pdf"]), true, FileEvent("/watched/report.pdf", "", false))
  {
    assert "/watched/" + "report" + "." + "pdf" == "/watched/report.pdf";
    assert "report"[0] != '.';
    assert "." + "pdf" == ".pdf";
    Strings.LowerOfLower(".pdf");
    FileWithListedExtension("/watched/", "report", "pdf", [".pdf"], true);
  }
}
