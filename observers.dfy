/**
 * The `DataCollector` observer of the harambe scrapers: it keeps every record
 * handed to `on_save_data`, in order, and, when blob storage is configured,
 * appends the record as one JSON line to the blob named after the scraper and
 * the minute of the upload.
 */
module Observers {
  import opened Wrappers
  import opened Text
  import opened Numbers
  import opened Calendar
  import opened Localize
  import opened Stages

  /** `f"{now.year}/{now.month:02d}/{now.day:02d}/{now.hour:02d}{now.minute:02d}/{scraper_name}.json"` */
  function BlobPath(now: DateTime, scraperName: String): String
    requires Valid(now)
  {
    NatToString(now.date.year) + ("/" + (Pad(now.date.month, 2) + ("/" + (Pad(now.date.day, 2) + ("/" +
    (Pad(now.time.hour, 2) + Pad(now.time.minute, 2) + ("/" + (scraperName + ".json"))))))))
  }

  /** A digit string has no '/'. */
  lemma DigitsNoSlash(s: String)
    requires AllDigits(s)
    ensures '/' !in s
  {
    forall i | 0 <= i < |s| ensures s[i] != '/' {
      assert IsDigit(s[i]);
    }
  }

  /**
   * The blob path read back: split at '/', it gives the year, the two-digit month
   * and day, the four-digit hour and minute, and the file named after the scraper.
   */
  lemma BlobPathParts(now: DateTime, scraperName: String)
    requires Valid(now) && '/' !in scraperName
    ensures Split(BlobPath(now, scraperName), "/") ==
      [NatToString(now.date.year), Pad(now.date.month, 2), Pad(now.date.day, 2),
       Pad(now.time.hour, 2) + Pad(now.time.minute, 2), scraperName + ".json"]
    ensures |Pad(now.date.month, 2)| == 2 && |Pad(now.date.day, 2)| == 2
    ensures |Pad(now.time.hour, 2) + Pad(now.time.minute, 2)| == 4
  {
    var y, m, d := NatToString(now.date.year), Pad(now.date.month, 2), Pad(now.date.day, 2);
    var hm, file := Pad(now.time.hour, 2) + Pad(now.time.minute, 2), scraperName + ".json";
    PadZero(now.date.month);
    PadZero(now.date.day);
    PadZero(now.time.hour);
    PadZero(now.time.minute);
    FileSplit(scraperName);
    DigitsNoSlash(y);
    DigitsNoSlash(m);
    DigitsNoSlash(d);
    DigitsNoSlash(hm);
    SlashJoin(y, m, d, hm, file);
  }

  /**
   * Two uploads share a blob exactly when the clock shows the same minute for
   * both: the same year, month, day, hour and minute (the seconds are not part
   * of the path).
   */
  lemma BlobPathMinute(now: DateTime, other: DateTime, scraperName: String)
    requires Valid(now) && Valid(other) && '/' !in scraperName
    ensures BlobPath(now, scraperName) == BlobPath(other, scraperName) <==>
      && now.date == other.date
      && now.time.hour == other.time.hour && now.time.minute == other.time.minute
  {
    if BlobPath(now, scraperName) == BlobPath(other, scraperName) {
      BlobPathParts(now, scraperName);
      BlobPathParts(other, scraperName);
      var parts, others := Split(BlobPath(now, scraperName), "/"), Split(BlobPath(other, scraperName), "/");
      assert parts == others;
      assert parts[0] == others[0] && parts[1] == others[1] && parts[2] == others[2] && parts[3] == others[3];
      SameFields(now, other);
    }
  }

  /** A step of `BlobPathMinute`: equal year, month, day and hour-minute pieces mean equal fields. */
  lemma SameFields(now: DateTime, other: DateTime)
    requires Valid(now) && Valid(other)
    requires NatToString(now.date.year) == NatToString(other.date.year)
    requires Pad(now.date.month, 2) == Pad(other.date.month, 2) && Pad(now.date.day, 2) == Pad(other.date.day, 2)
    requires Pad(now.time.hour, 2) + Pad(now.time.minute, 2) == Pad(other.time.hour, 2) + Pad(other.time.minute, 2)
    ensures now.date == other.date && now.time.hour == other.time.hour && now.time.minute == other.time.minute
  {
    NatToStringValue(now.date.year);
    NatToStringValue(other.date.year);
    PadRoundTrip(now.date.month, 2);
    PadRoundTrip(other.date.month, 2);
    PadRoundTrip(now.date.day, 2);
    PadRoundTrip(other.date.day, 2);
    PadZero(now.time.hour);
    PadZero(other.time.hour);
    var hm, ohm := Pad(now.time.hour, 2) + Pad(now.time.minute, 2), Pad(other.time.hour, 2) + Pad(other.time.minute, 2);
    assert Pad(now.time.hour, 2) == hm[..2] == ohm[..2] == Pad(other.time.hour, 2);
    assert Pad(now.time.minute, 2) == hm[2..] == ohm[2..] == Pad(other.time.minute, 2);
    PadRoundTrip(now.time.hour, 2);
    PadRoundTrip(other.time.hour, 2);
    PadRoundTrip(now.time.minute, 2);
    PadRoundTrip(other.time.minute, 2);
  }


  /** Five pieces joined by '/', the first four slash-free and the last a single piece, split back into themselves. */
  lemma SlashJoin(a: String, b: String, c: String, d: String, e: String)
    requires '/' !in a && '/' !in b && '/' !in c && '/' !in d && Split(e, "/") == [e]
    ensures Split(a + ("/" + (b + ("/" + (c + ("/" + (d + ("/" + e))))))), "/") == [a, b, c, d, e]
  {
    var p4 := d + ("/" + e);
    SlashCons(d, e, [e]);
    var p3 := c + ("/" + p4);
    SlashCons(c, p4, [d, e]);
    var p2 := b + ("/" + p3);
    SlashCons(b, p3, [c, d, e]);
    SlashCons(a, p2, [b, c, d, e]);
  }

  /** The file name of a slash-free scraper name is a single piece. */
  lemma FileSplit(scraperName: String)
    requires '/' !in scraperName
    ensures Split(scraperName + ".json", "/") == [scraperName + ".json"]
  {
    var file := scraperName + ".json";
    forall i | 0 <= i < |file| ensures file[i] != '/' {
      if i < |scraperName| { assert file[i] == scraperName[i]; }
    }
    CharContains(file, '/');
    SplitWithout(file, "/");
  }

  /** Splitting at '/' a text that starts with a slash-free piece and a slash. */
  lemma SlashCons(a: String, b: String, rest: seq<String>)
    requires '/' !in a && Split(b, "/") == rest
    ensures Split(a + ("/" + b), "/") == [a] + rest
  {
    assert a + ("/" + b) == a + ['/'] + b;
    SplitPrepend(a, '/', b, rest);
  }

  /** The blob container: the text stored under each path. */
  class BlobContainer {
    var blobs: map<String, String>

    constructor(blobs: map<String, String>)
      ensures this.blobs == blobs
    {
      this.blobs := blobs;
    }

    /**
     * The append of `_upload_to_azure`: the existing text followed by the line,
     * or the line alone when the blob does not exist yet.
     */
    method AppendLine(path: String, line: String)
      modifies this
      ensures blobs == old(blobs)[path := Appended(old(blobs), path, line)]
    {
      if path in blobs {
        blobs := blobs[path := blobs[path] + line];
      } else {
        blobs := blobs[path := line];
      }
    }
  }

  /** The text a blob holds after one more line: everything it held, then the line. */
  function Appended(blobs: map<String, String>, path: String, line: String): String
  {
    if path in blobs then blobs[path] + line else line
  }

  /** A new blob holds the line alone; an existing one keeps its text in front of the line. */
  lemma AppendedText(blobs: map<String, String>, path: String, line: String)
    ensures var r := Appended(blobs, path, line);
      && (path !in blobs ==> r == line)
      && (path in blobs ==> |r| == |blobs[path]| + |line|)
      && (path in blobs ==> r[..|blobs[path]|] == blobs[path] && r[|blobs[path]|..] == line)
  {
  }

  /** Lines appended to a blob one after another are stored in the order they were appended. */
  lemma AppendedTwice(blobs: map<String, String>, path: String, first: String, second: String)
    ensures var once := blobs[path := Appended(blobs, path, first)];
      Appended(once, path, second) == Appended(blobs, path, first + second)
  {
    if path in blobs {
      assert blobs[path] + first + second == blobs[path] + (first + second);
    }
  }

  /**
   * The wall clock `_upload_to_azure` reads with `datetime.now()` on every
   * upload: `clock(k)` is the time it shows when a collector uploads the record
   * it saved `k`-th (counting from 0).
   */
  ghost predicate ValidClock(clock: nat -> DateTime)
  {
    forall k :: Valid(clock(k))
  }

  /** The blob path of each upload: the `k`-th goes to the blob of the minute `clock(k)`. */
  function UploadPaths(clock: nat -> DateTime, scraperName: String): nat -> String
    requires ValidClock(clock)
  {
    (k: nat) => BlobPath(clock(k), scraperName)
  }

  /**
   * The blobs after `records` are uploaded one after another by a collector that
   * had saved `start` records before them: the record saved `k`-th goes, as one
   * JSON line, to the blob `paths(k)`.
   */
  function Uploads<T>(blobs: map<String, String>, records: seq<T>, start: nat, paths: nat -> String,
                      dumps: T -> String): map<String, String>
  {
    if records == [] then blobs
    else
      var before := Uploads(blobs, records[..|records| - 1], start, paths, dumps);
      var path := paths(start + |records| - 1);
      before[path := Appended(before, path, dumps(records[|records| - 1]) + "\n")]
  }

  /** The text of a blob, "" when it does not exist. */
  function BlobText(blobs: map<String, String>, path: String): String
  {
    if path in blobs then blobs[path] else ""
  }

  /** The JSON lines, in order, of those `records` uploaded to the blob `path`. */
  function LinesAt<T>(records: seq<T>, start: nat, paths: nat -> String, dumps: T -> String, path: String): String
  {
    if records == [] then ""
    else
      LinesAt(records[..|records| - 1], start, paths, dumps, path) +
      if paths(start + |records| - 1) == path then dumps(records[|records| - 1]) + "\n" else ""
  }

  /**
   * What the uploads leave in each blob: the text it held, followed by the JSON
   * lines of exactly the records uploaded to it, in the order they were saved;
   * a blob exists afterwards exactly when it existed before or some record was
   * uploaded to it. With the paths of a clock, a run that spans several minutes
   * thus spreads its records over several blobs.
   */
  lemma {:induction false} UploadsAt<T>(blobs: map<String, String>, records: seq<T>, start: nat,
                                        paths: nat -> String, dumps: T -> String, path: String)
    ensures var after := Uploads(blobs, records, start, paths, dumps);
      var lines := LinesAt(records, start, paths, dumps, path);
      && BlobText(after, path) == BlobText(blobs, path) + lines
      && (path in after <==> path in blobs || lines != "")
  {
    if records != [] {
      var init := records[..|records| - 1];
      UploadsAt(blobs, init, start, paths, dumps, path);
      AtStep(Uploads(blobs, init, start, paths, dumps), paths(start + |records| - 1),
             dumps(records[|records| - 1]) + "\n", path, BlobText(blobs, path),
             LinesAt(init, start, paths, dumps, path), path in blobs);
    }
  }

  /**
   * A step of `UploadsAt`: appending one more line to the blob `last` keeps the
   * text of `path` as it was, followed by the line when `last` is `path`.
   */
  lemma AtStep(before: map<String, String>, last: String, line: String, path: String, text: String, lines: String,
               had: bool)
    requires line != "" && BlobText(before, path) == text + lines && (path in before <==> had || lines != "")
    ensures var after := before[last := Appended(before, last, line)];
      var more := lines + if last == path then line else "";
      && BlobText(after, path) == text + more
      && (path in after <==> had || more != "")
  {
    if last == path {
      assert BlobText(before, path) + line == text + (lines + line);
    } else {
      assert lines + "" == lines;
    }
  }

  /** Uploading two runs of records one after the other is uploading them together. */
  lemma {:induction false} UploadsAppend<T>(blobs: map<String, String>, first: seq<T>, second: seq<T>, start: nat,
                                            paths: nat -> String, dumps: T -> String)
    ensures Uploads(Uploads(blobs, first, start, paths, dumps), second, start + |first|, paths, dumps)
      == Uploads(blobs, first + second, start, paths, dumps)
  {
    if second == [] {
      assert first + second == first;
    } else {
      var init := second[..|second| - 1];
      UploadsAppend(blobs, first, init, start, paths, dumps);
      assert (first + second)[..|first + second| - 1] == first + init;
    }
  }

  /**
   * One more run of uploads: when `mid` is what the earlier records left and
   * `after` what the next ones, numbered from `next` on, leave on top of it,
   * `after` is what all of them leave together.
   */
  lemma UploadsNext<T>(blobs: map<String, String>, done: seq<T>, added: seq<T>, mid: map<String, String>,
                       after: map<String, String>, start: nat, next: nat, paths: nat -> String, dumps: T -> String)
    requires next == start + |done|
    requires mid == Uploads(blobs, done, start, paths, dumps)
    requires after == Uploads(mid, added, next, paths, dumps)
    ensures after == Uploads(blobs, done + added, start, paths, dumps)
  {
    UploadsAppend(blobs, done, added, start, paths, dumps);
  }

  /**
   * One more turn of a detail loop that saves the outcome of each item, if any:
   * the uploads so far and that of the item's outcome are the uploads of the
   * outcomes of the items up to and including it.
   */
  lemma UploadsKept<E, T>(xs: seq<E>, outcome: E -> Option<T>, i: nat, blobs: map<String, String>,
                          mid: map<String, String>, after: map<String, String>, start: nat, next: nat,
                          paths: nat -> String, dumps: T -> String)
    requires i < |xs| && next == start + |Kept(xs[..i], outcome)|
    requires mid == Uploads(blobs, Kept(xs[..i], outcome), start, paths, dumps)
    requires after == Uploads(mid, if outcome(xs[i]).Some? then [outcome(xs[i]).value] else [], next, paths, dumps)
    ensures after == Uploads(blobs, Kept(xs[..i + 1], outcome), start, paths, dumps)
  {
    var done := Kept(xs[..i], outcome);
    var added := if outcome(xs[i]).Some? then [outcome(xs[i]).value] else [];
    UploadsAppend(blobs, done, added, start, paths, dumps);
    KeptNext(xs, outcome, i);
  }

  /**
   * `DataCollector`: the records saved so far and, when the storage credentials
   * are all set, the container records are uploaded to.
   */
  class DataCollector<T> {
    const scraperName: String
    const container: BlobContainer?
    var data: seq<T>

    /** `DataCollector(scraper_name)`; `container` is `_init_azure`'s client, `null` without credentials. */
    constructor(scraperName: String, container: BlobContainer?)
      ensures this.scraperName == scraperName && this.container == container && data == []
    {
      this.scraperName := scraperName;
      this.container := container;
      data := [];
    }

    /**
     * `on_save_data`: keep the record and, with a container, append its JSON line
     * (`dumps` stands for `json.dumps`) to the blob of the minute the clock shows
     * for this upload.
     */
    method OnSaveData(record: T, clock: nat -> DateTime, dumps: T -> String)
      requires ValidClock(clock)
      modifies this, container
      ensures data == old(data) + [record]
      ensures container != null ==>
        var path := BlobPath(clock(|old(data)|), scraperName);
        container.blobs == old(container.blobs)[path := Appended(old(container.blobs), path, dumps(record) + "\n")]
      ensures container != null ==>
        container.blobs == Uploads(old(container.blobs), [record], |old(data)|, UploadPaths(clock, scraperName), dumps)
    {
      var now := clock(|data|);
      data := data + [record];
      if container != null {
        container.AppendLine(BlobPath(now, scraperName), dumps(record) + "\n");
      }
    }
  }
}
