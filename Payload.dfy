/**
  The JSON object `send_notification` posts to the ntfy.sh publish endpoint,
  built one field at a time as the source builds its dict.
 */
module Payload {
  import opened Options

  /** The JSON values that occur in a payload. */
  datatype Json = JString(s: string) | JInt(n: int) | JList(items: seq<string>)

  /** The keys a payload can carry. */
  datatype Field = Topic | Message | Title | Priority | Tags | Click | Attach | Actions

  /** The JSON name of each key. */
  function Name(f: Field): (s: string)
    ensures |s| >= 4
  {
    match f
    case Topic => "topic"
    case Message => "message"
    case Title => "title"
    case Priority => "priority"
    case Tags => "tags"
    case Click => "click"
    case Attach => "attach"
    case Actions => "actions"
  }

  /** Different keys have different JSON names, so a map over `Field` is a JSON object. */
  lemma NamesAreDistinct(f: Field, g: Field)
    requires f != g
    ensures Name(f) != Name(g)
  {
    assert Name(f)[0] != Name(g)[0] || Name(f)[1] != Name(g)[1] || |Name(f)| != |Name(g)|;
  }

  /** The request body before serialisation: a JSON object. */
  type Payload = map<Field, Json>

  /**
    The `priority` argument: absent, a number (copied as given), or a name.
    The callers in the monitor pass numbers.
   */
  datatype PriorityArg = NoPriority | Level(n: int) | Named(name: string)

  /** The arguments of one `send_notification` call. */
  datatype Notification = Notification(
    message: string,
    title: Option<string>,
    priority: PriorityArg,
    tags: Option<string>,
    click: Option<string>,
    attach: Option<string>,
    actions: Option<string>)

  /** The priority names ntfy.sh understands, with the numbers they stand for. */
  const PriorityNames: map<string, int> :=
    map["urgent" := 5, "high" := 4, "default" := 3, "low" := 2, "min" := 1]

  /**
    The number a priority argument contributes to the payload, if any: none for
    a falsy argument (absent, 0, empty name) or an unknown name, the mapped
    number for a known name, the number itself otherwise.
   */
  function NumericPriority(priority: PriorityArg): (r: Option<int>)
    ensures priority.Named? && r.Some? ==> 1 <= r.value <= 5
    ensures priority.Named? ==> (r.Some? <==> priority.name in PriorityNames)
    ensures priority.Level? ==> (r.Some? <==> priority.n != 0)
    ensures priority.Level? && r.Some? ==> r.value == priority.n
    ensures priority.NoPriority? ==> r.None?
  {
    match priority
    case NoPriority => None
    case Level(n) => if n != 0 then Some(n) else None
    case Named(name) => if name in PriorityNames then Some(PriorityNames[name]) else None
  }

  /** The five names map to 5 down to 1; anything else is left out. */
  lemma PriorityNameTable(other: string)
    requires other !in {"urgent", "high", "default", "low", "min"}
    ensures NumericPriority(Named("urgent")) == Some(5)
    ensures NumericPriority(Named("high")) == Some(4)
    ensures NumericPriority(Named("default")) == Some(3)
    ensures NumericPriority(Named("low")) == Some(2)
    ensures NumericPriority(Named("min")) == Some(1)
    ensures NumericPriority(Named(other)) == None
  {
  }

  /** An optional string field: present exactly when the argument is truthy, with its text. */
  ghost predicate OptionalString(p: Payload, key: Field, arg: Option<string>) {
    && (key in p <==> Truthy(arg))
    && (key in p ==> p[key] == JString(arg.value))
  }

  /**
    The first part of the body `send_notification` posts for `n` on `topic`:
    topic and message always; the title when truthy; the numeric priority when
    there is one; the tag string, unsplit, as a one-element list.
   */
  ghost predicate HasHeadline(p: Payload, topic: string, n: Notification) {
    && Topic in p && p[Topic] == JString(topic)
    && Message in p && p[Message] == JString(n.message)
    && OptionalString(p, Title, n.title)
    && (Priority in p <==> NumericPriority(n.priority).Some?)
    && (Priority in p ==> p[Priority] == JInt(NumericPriority(n.priority).value))
    && (Tags in p <==> Truthy(n.tags))
    && (Tags in p ==> p[Tags] == JList([n.tags.value]))
  }

  /** `p` is the whole body: the headline fields, then click, attach and actions when truthy. */
  ghost predicate Publishes(p: Payload, topic: string, n: Notification) {
    && HasHeadline(p, topic, n)
    && OptionalString(p, Click, n.click)
    && OptionalString(p, Attach, n.attach)
    && OptionalString(p, Actions, n.actions)
  }

  /** Two payloads that both describe the same call are the same payload. */
  lemma PublishesIsUnique(p: Payload, q: Payload, topic: string, n: Notification)
    requires Publishes(p, topic, n) && Publishes(q, topic, n)
    ensures p == q
  {
    forall k: Field ensures (k in p <==> k in q) && (k in p ==> p[k] == q[k]) {
      match k
      case Topic =>
      case Message =>
      case Title =>
      case Priority =>
      case Tags =>
      case Click =>
      case Attach =>
      case Actions =>
    }
  }

  /** The `if priority:` step of `send_notification`: a name is looked up, a number is copied. */
  method PriorityLevel(priority: PriorityArg) returns (level: Option<int>)
    ensures level == NumericPriority(priority)
  {
    level := None;
    match priority {
      case NoPriority =>
      case Named(name) =>
        if name != "" && name in PriorityNames {
          level := Some(PriorityNames[name]);
        }
      case Level(v) =>
        if v != 0 {
          level := Some(v);
        }
    }
  }

  /** The dict-building part of `send_notification`. */
  method BuildPayload(topic: string, n: Notification) returns (p: Payload)
    ensures Publishes(p, topic, n)
  {
    p := Headline(topic, n);
    if Truthy(n.click) {
      p := p[Click := JString(n.click.value)];
    }
    if Truthy(n.attach) {
      p := p[Attach := JString(n.attach.value)];
    }
    if Truthy(n.actions) {
      p := p[Actions := JString(n.actions.value)];
    }
  }

  /** The first steps of the dict: topic, message, then title, priority and tags when given. */
  method Headline(topic: string, n: Notification) returns (p: Payload)
    ensures HasHeadline(p, topic, n)
    ensures p.Keys <= {Topic, Message, Title, Priority, Tags}
  {
    p := map[Topic := JString(topic), Message := JString(n.message)];
    if Truthy(n.title) {
      p := p[Title := JString(n.title.value)];
    }
    var level := PriorityLevel(n.priority);
    if level.Some? {
      p := p[Priority := JInt(level.value)];
    }
    if Truthy(n.tags) {
      p := p[Tags := JList([n.tags.value])];
    }
  }
}
