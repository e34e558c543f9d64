/**
  The part of `main` that shapes the handler: the `--extensions` list turned
  into the allow-list, the `--include-directories` flag turned into the
  exclusion flag, and the notification sent when the operator stops the monitor.
 */
module Cli {
  import opened Options
  import opened Strings
  import opened Monitor

  /**
    One entry of `--extensions`: stripped, lower-cased, and given a leading dot
    unless the stripped entry already starts with one.
   */
  function NormaliseEntry(ext: string): (r: string)
    ensures StartsWith(r, ".")
    ensures forall i :: 0 <= i < |r| ==> !IsUpper(r[i])
    ensures |r| == |Strip(ext)| + (if StartsWith(Strip(ext), ".") then 0 else 1)
    ensures r[|r| - |Strip(ext)|..] == Lower(Strip(ext))
  {
    var stripped := Strip(ext);
    var lowered := Lower(stripped);
    if StartsWith(stripped, ".") then
      assert lowered[0] == stripped[0];
      assert lowered[|lowered| - |stripped|..] == lowered;
      lowered
    else
      DotPrefixKeepsLower(lowered);
      "." + lowered
  }

  lemma {:induction false} DotPrefixKeepsLower(lowered: string)
    requires forall i :: 0 <= i < |lowered| ==> !IsUpper(lowered[i])
    ensures StartsWith("." + lowered, ".") && ("." + lowered)[1..] == lowered
    ensures forall i :: 0 <= i < |"." + lowered| ==> !IsUpper(("." + lowered)[i])
  {
    var r := "." + lowered;
    assert r[..1] == ".";
    assert r[1..] == lowered;
    forall i | 0 <= i < |r| ensures !IsUpper(r[i]) {
      if i > 0 { assert r[i] == lowered[i - 1]; }
    }
  }

  /** A normalised entry has nothing left to strip. */
  lemma {:induction false} NormalisedEntryIsStripped(ext: string)
    ensures Strip(NormaliseEntry(ext)) == NormaliseEntry(ext)
  {
    var r := NormaliseEntry(ext);
    var stripped := Strip(ext);
    var lowered := Lower(stripped);
    assert r[0] == '.';
    if |stripped| > 0 {
      assert r[|r| - |stripped|..] == lowered;
      assert r[|r| - 1] == lowered[|lowered| - 1];
      assert !IsSpace(stripped[|stripped| - 1]);
    } else {
      assert r == ".";
    }
    StripOfStripped(r);
  }

  /** Normalising twice is normalising once. */
  lemma {:induction false} NormaliseEntryIdempotent(ext: string)
    ensures NormaliseEntry(NormaliseEntry(ext)) == NormaliseEntry(ext)
  {
    var r := NormaliseEntry(ext);
    NormalisedEntryIsStripped(ext);
    LowerOfLower(r);
  }

  /**
    `--extensions` as the allow-list: absent or empty gives no list; otherwise
    one normalised entry for each comma-separated piece, in order.
   */
  function NormaliseExtensions(extensions: Option<string>): (r: Option<seq<string>>)
    ensures r.Some? <==> Truthy(extensions)
    ensures r.Some? ==> |r.value| == |Split(extensions.value, ',')| == Count(extensions.value, ',') + 1
    ensures r.Some? ==> forall i :: 0 <= i < |r.value| ==>
              r.value[i] == NormaliseEntry(Split(extensions.value, ',')[i])
  {
    if Truthy(extensions) then
      var pieces := Split(extensions.value, ',');
      SplitPieces(extensions.value, ',');
      Some(seq(|pieces|, i requires 0 <= i < |pieces| => NormaliseEntry(pieces[i])))
    else
      None
  }

  /** Every entry of the allow-list is already in normal form. */
  lemma {:induction false} AllowListIsNormalised(extensions: Option<string>)
    requires Truthy(extensions)
    ensures var list := NormaliseExtensions(extensions).value;
            forall i :: 0 <= i < |list| ==> NormaliseEntry(list[i]) == list[i]
  {
    var list := NormaliseExtensions(extensions).value;
    forall i | 0 <= i < |list| ensures NormaliseEntry(list[i]) == list[i] {
      NormaliseEntryIdempotent(Split(extensions.value, ',')[i]);
    }
  }

  lemma {:induction false} StripOneSpace(w: string)
    requires |w| > 0 && !IsSpace(w[0]) && !IsSpace(w[|w| - 1])
    ensures Strip(" " + w) == w
  {
    assert (" " + w)[1..] == w;
    assert StripLeft(" " + w) == StripLeft(w) == w;
    StripOfStripped(w);
  }

  /** An entry without a dot gets one in front of its lower-case form. */
  lemma {:induction false} EntryWithoutDot(ext: string, w: string, lowered: string)
    requires Strip(ext) == w && |w| > 0 && w[0] != '.' && Lower(w) == lowered
    ensures NormaliseEntry(ext) == "." + lowered
  {
  }

  /** An entry with a dot keeps it and is lower-cased. */
  lemma {:induction false} EntryWithDot(ext: string, w: string, lowered: string)
    requires Strip(ext) == w && |w| > 0 && w[0] == '.' && Lower(w) == lowered
    ensures NormaliseEntry(ext) == lowered
  {
  }

  lemma TxtEntry()
    ensures NormaliseEntry(" TXT") == ".txt"
  {
    StripOneSpace("TXT");
    assert Lower("T") == "t";
    assert Lower("XT") == "xt";
    assert Lower("TXT") == "txt";
    assert "TXT"[0] != '.';
    EntryWithoutDot(" TXT", "TXT", "txt");
  }

  lemma PdfEntry()
    ensures NormaliseEntry(" .Pdf") == ".pdf"
  {
    StripOneSpace(".Pdf");
    LowerOfLower("df");
    assert Lower("Pdf") == "pdf";
    assert Lower(".Pdf") == ".pdf";
    assert ".Pdf"[0] == '.';
    EntryWithDot(" .Pdf", ".Pdf", ".pdf");
  }

  lemma MdEntry()
    ensures NormaliseEntry("md") == ".md"
  {
    StripOfStripped("md");
    LowerOfLower("md");
    assert "md"[0] != '.';
    EntryWithoutDot("md", "md", "md");
  }

  lemma SplitExample()
    ensures Split(" TXT, .Pdf,md", ',') == [" TXT", " .Pdf", "md"]
  {
    SplitThree(',', " TXT, .Pdf,md", " TXT", " .Pdf", "md");
  }

  /** A three-piece `--extensions` value gives a three-entry allow-list, in order. */
  lemma {:induction false} NormaliseThree(s: string, a: string, b: string, c: string)
    requires s != "" && Split(s, ',') == [a, b, c]
    ensures NormaliseExtensions(Some(s)) == Some([NormaliseEntry(a), NormaliseEntry(b), NormaliseEntry(c)])
  {
    assert Truthy(Some(s));
    var list := NormaliseExtensions(Some(s)).value;
    assert list[0] == NormaliseEntry(a);
    assert list[1] == NormaliseEntry(b);
    assert list[2] == NormaliseEntry(c);
    ThreeItems(list, NormaliseEntry(a), NormaliseEntry(b), NormaliseEntry(c));
  }

  lemma {:induction false} ThreeItems(list: seq<string>, x: string, y: string, z: string)
    requires |list| == 3 && list[0] == x && list[1] == y && list[2] == z
    ensures list == [x, y, z]
  {
  }

  /** `" TXT, .Pdf,md"` becomes `[".txt", ".pdf", ".md"]`. */
  lemma NormaliseExample()
    ensures NormaliseExtensions(Some(" TXT, .Pdf,md")) == Some([".txt", ".pdf", ".md"])
  {
    SplitExample();
    TxtEntry();
    PdfEntry();
    MdEntry();
    NormaliseThree(" TXT, .Pdf,md", " TXT", " .Pdf", "md");
  }

  /**
    `main` from the parsed arguments to the running handler: the allow-list is
    the normalised `--extensions`, directories are excluded unless
    `--include-directories` is given, and the start notification is sent.
   */
  method Start(topic: string, extensions: Option<string>, includeDirectories: bool)
    returns (handler: FileChangeHandler)
    ensures fresh(handler) && handler.Valid()
    ensures handler.topic == topic
    ensures handler.includeExtensions == NormaliseExtensions(extensions)
    ensures handler.excludeDirectories == !includeDirectories
    ensures SentOne([], handler.outbox, topic, StartedNotification)
  {
    var includeExtensions := NormaliseExtensions(extensions);
    handler := new FileChangeHandler(topic, includeExtensions, !includeDirectories);
  }

  /** On the operator's interrupt, `main` sends one "Monitoring Stopped" notification. */
  method Stop(handler: FileChangeHandler)
    requires handler.Valid()
    modifies handler
    ensures handler.Valid()
    ensures SentOne(old(handler.outbox), handler.outbox, handler.topic, StoppedNotification)
  {
    handler.SendNotification(StoppedNotification.message, StoppedNotification.title,
                             StoppedNotification.priority, StoppedNotification.tags, None, None, None);
  }
}
