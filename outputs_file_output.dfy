/** The file sink: one text file per feed that vMix can poll, written only when
    the text changes, plus an optional history file per feed. The file system
    is a map from path to text. */
module Outputs {
  import opened Common
  import opened Feeds

  const SecondsPerDay: nat := 86400

  // ---------------------------------------------------------------------------
  // Paths

  /** `output_dir / f"{feed_id}.txt"`: the directory, a separator, the id, then `.txt`. */
  function CaptionPath(dir: string, feedId: string): (p: string)
    ensures |p| == |dir| + |feedId| + 5
    ensures p[..|dir| + 1] == dir + "/" && p[|dir| + 1..|dir| + 1 + |feedId|] == feedId
    ensures p[|p| - 4..] == ".txt"
  {
    dir + "/" + feedId + ".txt"
  }

  /** `output_dir / f"{feed_id}_history.txt"`: the directory, a separator, the id, then `_history.txt`. */
  function HistoryPath(dir: string, feedId: string): (p: string)
    ensures |p| == |dir| + |feedId| + 13
    ensures p[..|dir| + 1] == dir + "/" && p[|dir| + 1..|dir| + 1 + |feedId|] == feedId
    ensures p[|p| - 12..] == "_history.txt"
  {
    dir + "/" + feedId + "_history.txt"
  }

  /** The feed id can be read back from its caption path, so no two feeds share a file. */
  lemma CaptionPathInjective(dir: string, f: string, g: string)
    requires CaptionPath(dir, f) == CaptionPath(dir, g)
    ensures f == g
  {
    var p := CaptionPath(dir, f);
    assert |f| == |g|;
    assert p[|dir| + 1..|dir| + 1 + |f|] == f;
    assert CaptionPath(dir, g)[|dir| + 1..|dir| + 1 + |g|] == g;
  }

  /** The history file of feed `f` is the caption file of a feed named `f_history`. */
  lemma HistoryPathIsCaptionPath(dir: string, f: string)
    ensures HistoryPath(dir, f) == CaptionPath(dir, f + "_history")
  {
    assert dir + "/" + f + "_history.txt" == dir + "/" + (f + "_history") + ".txt";
  }

  // ---------------------------------------------------------------------------
  // The write-if-changed cache

  /** `_last_text` together with the contents of the file system. */
  datatype CacheState = CacheState(lastText: map<string, string>, files: map<string, string>)

  datatype WriteResult = WriteResult(written: bool, state: CacheState)

  /** `write_caption`: skip when the cached text for the feed equals `text`; otherwise try the
      write (it fails for a path in `unwritable`) and cache the text only on success. A write
      that is not skipped succeeds exactly when the path is writable; on success the file and
      the cache both hold the new text, otherwise nothing changes. */
  function WriteStep(st: CacheState, dir: string, feedId: string, text: string, unwritable: set<string>): (r: WriteResult)
    ensures r.written <==> !(feedId in st.lastText && st.lastText[feedId] == text) && CaptionPath(dir, feedId) !in unwritable
    ensures r.written ==> && feedId in r.state.lastText && r.state.lastText[feedId] == text
                          && CaptionPath(dir, feedId) in r.state.files && r.state.files[CaptionPath(dir, feedId)] == text
    ensures r.written ==> r.state == CacheState(st.lastText[feedId := text], st.files[CaptionPath(dir, feedId) := text])
    ensures !r.written ==> r.state == st
  {
    if feedId in st.lastText && st.lastText[feedId] == text then WriteResult(false, st)
    else
      var p := CaptionPath(dir, feedId);
      if p in unwritable then WriteResult(false, st)
      else WriteResult(true, CacheState(st.lastText[feedId := text], st.files[p := text]))
  }

  /** Every cached text is what the feed's file holds. */
  ghost predicate Synced(st: CacheState, dir: string) {
    forall f | f in st.lastText :: CaptionPath(dir, f) in st.files && st.files[CaptionPath(dir, f)] == st.lastText[f]
  }

  /** Writing the text already cached for the feed touches nothing and reports false; when the
      cache agrees with the disk, the file then already holds that text. */
  lemma WriteSkipsUnchangedText(st: CacheState, dir: string, feedId: string, text: string, unwritable: set<string>)
    requires feedId in st.lastText && st.lastText[feedId] == text
    ensures WriteStep(st, dir, feedId, text, unwritable) == WriteResult(false, st)
    ensures Synced(st, dir) ==> st.files[CaptionPath(dir, feedId)] == text
  {
  }

  /** A write for one feed leaves every other feed's cache entry and caption file as they were. */
  lemma WriteIsolation(st: CacheState, dir: string, feedId: string, text: string, unwritable: set<string>, other: string)
    requires other != feedId
    ensures var r := WriteStep(st, dir, feedId, text, unwritable).state;
            && (other in r.lastText <==> other in st.lastText)
            && (other in st.lastText ==> r.lastText[other] == st.lastText[other])
            && (CaptionPath(dir, other) in r.files <==> CaptionPath(dir, other) in st.files)
            && (CaptionPath(dir, other) in st.files ==> r.files[CaptionPath(dir, other)] == st.files[CaptionPath(dir, other)])
  {
    if CaptionPath(dir, other) == CaptionPath(dir, feedId) {
      CaptionPathInjective(dir, other, feedId);
    }
  }

  /** Caption writes keep the cache in agreement with the disk. */
  lemma WriteKeepsSynced(st: CacheState, dir: string, feedId: string, text: string, unwritable: set<string>)
    requires Synced(st, dir)
    ensures Synced(WriteStep(st, dir, feedId, text, unwritable).state, dir)
  {
    var r := WriteStep(st, dir, feedId, text, unwritable).state;
    forall f | f in r.lastText
      ensures CaptionPath(dir, f) in r.files && r.files[CaptionPath(dir, f)] == r.lastText[f]
    {
      if f != feedId {
        WriteIsolation(st, dir, feedId, text, unwritable, f);
      }
    }
  }

  /** The caption files that clearing the feeds in `ids` rewrites to "". */
  function BlankedPaths(st: CacheState, dir: string, unwritable: set<string>, ids: set<string>): set<string> {
    set f | f in st.lastText && f in ids && st.lastText[f] != "" && CaptionPath(dir, f) !in unwritable :: CaptionPath(dir, f)
  }

  /** The state after clearing every feed of `ids` (any order gives the same result). */
  function ClearedOn(st: CacheState, dir: string, unwritable: set<string>, ids: set<string>): (r: CacheState)
    ensures r.lastText.Keys == st.lastText.Keys
    ensures forall f | f in st.lastText && f !in ids :: r.lastText[f] == st.lastText[f]
    ensures st.files.Keys <= r.files.Keys
  {
    CacheState(
      map f | f in st.lastText :: if f in ids && CaptionPath(dir, f) !in unwritable then "" else st.lastText[f],
      ClearedFiles(st, dir, unwritable, ids))
  }

  /** The files after clearing every feed of `ids`: the blanked caption files hold "". */
  function ClearedFiles(st: CacheState, dir: string, unwritable: set<string>, ids: set<string>): map<string, string> {
    var blanked := BlankedPaths(st, dir, unwritable, ids);
    map p | p in st.files.Keys + blanked :: if p in blanked then "" else st.files[p]
  }

  /** Clearing a feed whose text is already empty, or whose file cannot be written, blanks no file. */
  lemma BlankedUnchanged(st: CacheState, dir: string, unwritable: set<string>, ids: set<string>, f: string)
    requires f in st.lastText && (st.lastText[f] == "" || CaptionPath(dir, f) in unwritable)
    ensures BlankedPaths(st, dir, unwritable, ids + {f}) == BlankedPaths(st, dir, unwritable, ids)
  {
    var before := BlankedPaths(st, dir, unwritable, ids);
    var after := BlankedPaths(st, dir, unwritable, ids + {f});
    forall q | q in after ensures q in before {
      var g :| g in st.lastText && g in ids + {f} && st.lastText[g] != "" && CaptionPath(dir, g) !in unwritable && CaptionPath(dir, g) == q;
      assert g != f;
    }
  }

  /** Clearing a feed with text whose file can be written blanks exactly its caption file more. */
  lemma BlankedGrows(st: CacheState, dir: string, unwritable: set<string>, ids: set<string>, f: string)
    requires f in st.lastText && st.lastText[f] != "" && CaptionPath(dir, f) !in unwritable
    ensures BlankedPaths(st, dir, unwritable, ids + {f}) == BlankedPaths(st, dir, unwritable, ids) + {CaptionPath(dir, f)}
  {
  }

  /** Clearing one more feed with text, whose file can be written, blanks just its caption file. */
  lemma ClearedFilesGrow(st: CacheState, dir: string, unwritable: set<string>, ids: set<string>, f: string)
    requires f in st.lastText && st.lastText[f] != "" && CaptionPath(dir, f) !in unwritable
    ensures ClearedFiles(st, dir, unwritable, ids + {f}) == ClearedFiles(st, dir, unwritable, ids)[CaptionPath(dir, f) := ""]
  {
    BlankedGrows(st, dir, unwritable, ids, f);
    var c := ClearedFiles(st, dir, unwritable, ids);
    var d := ClearedFiles(st, dir, unwritable, ids + {f});
    var p := CaptionPath(dir, f);
    assert d.Keys == c.Keys + {p};
    forall q | q in d
      ensures d[q] == c[p := ""][q]
    {
    }
  }

  /** Clearing one more feed is one `clear_caption` call. */
  lemma ClearOneMore(st: CacheState, dir: string, unwritable: set<string>, ids: set<string>, f: string)
    requires f in st.lastText && f !in ids
    ensures ClearedOn(st, dir, unwritable, ids + {f}) == WriteStep(ClearedOn(st, dir, unwritable, ids), dir, f, "", unwritable).state
  {
    if st.lastText[f] != "" && CaptionPath(dir, f) !in unwritable {
      ClearOneMoreWrites(st, dir, unwritable, ids, f);
    } else {
      ClearOneMoreSkips(st, dir, unwritable, ids, f);
    }
  }

  /** The case of `ClearOneMore` where `clear_caption` writes the file. */
  lemma ClearOneMoreWrites(st: CacheState, dir: string, unwritable: set<string>, ids: set<string>, f: string)
    requires f in st.lastText && f !in ids && st.lastText[f] != "" && CaptionPath(dir, f) !in unwritable
    ensures ClearedOn(st, dir, unwritable, ids + {f}) == WriteStep(ClearedOn(st, dir, unwritable, ids), dir, f, "", unwritable).state
  {
    var c := ClearedOn(st, dir, unwritable, ids);
    var d := ClearedOn(st, dir, unwritable, ids + {f});
    assert c.lastText[f] == st.lastText[f];
    ClearedFilesGrow(st, dir, unwritable, ids, f);
    assert d.lastText == c.lastText[f := ""];
  }

  /** The case of `ClearOneMore` where `clear_caption` skips the feed or its write fails. */
  lemma ClearOneMoreSkips(st: CacheState, dir: string, unwritable: set<string>, ids: set<string>, f: string)
    requires f in st.lastText && f !in ids && (st.lastText[f] == "" || CaptionPath(dir, f) in unwritable)
    ensures ClearedOn(st, dir, unwritable, ids + {f}) == WriteStep(ClearedOn(st, dir, unwritable, ids), dir, f, "", unwritable).state
  {
    var c := ClearedOn(st, dir, unwritable, ids);
    var d := ClearedOn(st, dir, unwritable, ids + {f});
    assert c.lastText[f] == st.lastText[f];
    BlankedUnchanged(st, dir, unwritable, ids, f);
    assert d.lastText == c.lastText;
    assert d.files == c.files;
  }

  /** `clear_all` with a synced cache: every feed it knew keeps its cache entry and, unless its
      file cannot be written, ends with an empty cached text and an empty file. No feed is added. */
  lemma {:induction false} ClearAllBlanksEveryFeed(st: CacheState, dir: string, unwritable: set<string>)
    requires Synced(st, dir)
    ensures var r := ClearedOn(st, dir, unwritable, st.lastText.Keys);
            && r.lastText.Keys == st.lastText.Keys
            && forall f | f in st.lastText && CaptionPath(dir, f) !in unwritable ::
                 r.lastText[f] == "" && CaptionPath(dir, f) in r.files && r.files[CaptionPath(dir, f)] == ""
  {
    var r := ClearedOn(st, dir, unwritable, st.lastText.Keys);
    var blanked := BlankedPaths(st, dir, unwritable, st.lastText.Keys);
    forall f | f in st.lastText && CaptionPath(dir, f) !in unwritable
      ensures CaptionPath(dir, f) in r.files && r.files[CaptionPath(dir, f)] == ""
    {
      var p := CaptionPath(dir, f);
      if st.lastText[f] != "" {
        assert p in blanked;
      } else {
        assert p in st.files && st.files[p] == "";
      }
    }
  }

  // ---------------------------------------------------------------------------
  // History lines

  function Digit(d: nat): (c: char)
    requires d < 10
    ensures '0' <= c <= '9'
  {
    ('0' as int + d) as char
  }

  function DigitValue(c: char): int {
    c as int - '0' as int
  }

  function ParseTwoDigits(s: string): int
    requires |s| == 2
  {
    10 * DigitValue(s[0]) + DigitValue(s[1])
  }

  /** `%02d`-style rendering of a number below 100. */
  function TwoDigits(n: nat): (s: string)
    requires n < 100
    ensures |s| == 2 && '0' <= s[0] <= '9' && '0' <= s[1] <= '9'
    ensures ParseTwoDigits(s) == n
  {
    [Digit(n / 10), Digit(n % 10)]
  }

  /** Whole seconds since midnight of the timestamp's day. */
  function SecondsOfDay(t: Timestamp): nat {
    (t / MicrosPerSecond) % SecondsPerDay
  }

  /** Hours, minutes and seconds of a second of the day. */
  lemma ClockFields(secs: nat)
    requires secs < SecondsPerDay
    ensures secs / 3600 < 24 && secs % 3600 / 60 < 60 && secs % 3600 % 60 == secs % 60
    ensures secs / 3600 * 3600 + secs % 3600 / 60 * 60 + secs % 60 == secs
  {
    var h, rest := secs / 3600, secs % 3600;
    assert secs == h * 3600 + rest;
    var m, sec := rest / 60, rest % 60;
    assert rest == m * 60 + sec;
    assert secs == (h * 60 + m) * 60 + sec;
  }

  /** `strftime("%H:%M:%S")`. */
  function ClockText(t: Timestamp): (s: string)
    ensures |s| == 8 && s[2] == ':' && s[5] == ':'
    ensures forall i | 0 <= i < 8 && i != 2 && i != 5 :: '0' <= s[i] <= '9'
    ensures ParseTwoDigits(s[..2]) < 24 && ParseTwoDigits(s[3..5]) < 60 && ParseTwoDigits(s[6..]) < 60
    ensures ParseTwoDigits(s[..2]) * 3600 + ParseTwoDigits(s[3..5]) * 60 + ParseTwoDigits(s[6..]) == SecondsOfDay(t)
  {
    var secs := SecondsOfDay(t);
    ClockFields(secs);
    var h, m, sec := TwoDigits(secs / 3600), TwoDigits(secs % 3600 / 60), TwoDigits(secs % 60);
    var s := h + ":" + m + ":" + sec;
    assert s[..2] == h && s[3..5] == m && s[6..] == sec;
    s
  }

  /** `f"[{timestamp}] {caption.text}"`: it reads back as the caption's clock time and its text. */
  function HistoryLine(c: Caption): (line: string)
    ensures |line| == 11 + |c.text|
    ensures line[0] == '[' && line[9..11] == "] "
    ensures line[1..9] == ClockText(c.timestamp)
    ensures line[11..] == c.text
  {
    "[" + ClockText(c.timestamp) + "] " + c.text
  }

  lemma NoNewlineInHistoryLine(c: Caption)
    requires '\n' !in c.text
    ensures '\n' !in HistoryLine(c)
  {
    var clock := ClockText(c.timestamp);
    var line := HistoryLine(c);
    assert forall i | 0 <= i < 8 :: clock[i] == ':' || '0' <= clock[i] <= '9' by {
      assert clock == clock[..2] + ":" + clock[3..5] + ":" + clock[6..];
    }
    forall i | 0 <= i < |line|
      ensures line[i] != '\n'
    {
      if 1 <= i < 9 {
        assert line[i] == clock[i - 1];
      } else if 11 <= i {
        assert line[i] == c.text[i - 11];
      }
    }
  }

  /** One line per caption, in input order. */
  function HistoryLines(captions: seq<Caption>): (r: seq<string>)
    ensures |r| == |captions|
    ensures forall i | 0 <= i < |captions| :: r[i] == HistoryLine(captions[i])
  {
    if captions == [] then [] else HistoryLines(captions[..|captions| - 1]) + [HistoryLine(Last(captions))]
  }

  /** `"\n".join(lines)`: it starts with the first line and ends with the last. */
  function JoinLines(lines: seq<string>): (r: string)
    ensures lines != [] ==> |lines[0]| <= |r| && r[..|lines[0]|] == lines[0]
    ensures lines != [] ==> |Last(lines)| <= |r| && r[|r| - |Last(lines)|..] == Last(lines)
  {
    if lines == [] then ""
    else if |lines| == 1 then lines[0]
    else
      var rest := JoinLines(lines[1..]);
      var r := lines[0] + "\n" + rest;
      assert Last(lines[1..]) == Last(lines);
      assert r[|r| - |Last(lines)|..] == rest[|rest| - |Last(lines)|..];
      r
  }

  /** `s.split("\n")`. */
  function SplitLines(s: string): (r: seq<string>)
    ensures |r| >= 1
    decreases |s|
  {
    if '\n' !in s then [s]
    else
      var i := IndexOf(s, '\n');
      [s[..i]] + SplitLines(s[i + 1..])
  }

  /** The first newline ends the first line. */
  lemma SplitAtFirstNewline(a: string, b: string)
    requires '\n' !in a
    ensures SplitLines(a + "\n" + b) == [a] + SplitLines(b)
  {
    var s := a + "\n" + b;
    assert s[|a|] == '\n';
    assert forall j | 0 <= j < |a| :: s[j] == a[j];
    var i := IndexOf(s, '\n');
    assert i == |a|;
    assert s[..i] == a;
    assert s[i + 1..] == b;
  }

  /** Splitting the joined text gives back the lines, when none holds a newline. */
  lemma {:induction false} SplitJoin(lines: seq<string>)
    requires lines != []
    requires forall i | 0 <= i < |lines| :: '\n' !in lines[i]
    ensures SplitLines(JoinLines(lines)) == lines
  {
    if |lines| > 1 {
      SplitAtFirstNewline(lines[0], JoinLines(lines[1..]));
      SplitJoin(lines[1..]);
      assert lines == [lines[0]] + lines[1..];
    }
  }

  /** The history file of captions whose texts hold no newline splits back into exactly one
      `[HH:MM:SS] text` line per caption, in order; an empty history gives an empty file. */
  lemma HistoryFileLayout(captions: seq<Caption>)
    requires forall i | 0 <= i < |captions| :: '\n' !in captions[i].text
    ensures captions == [] ==> JoinLines(HistoryLines(captions)) == ""
    ensures captions != [] ==> SplitLines(JoinLines(HistoryLines(captions))) == HistoryLines(captions)
  {
    if captions != [] {
      var lines := HistoryLines(captions);
      forall i | 0 <= i < |lines|
        ensures '\n' !in lines[i]
      {
        NoNewlineInHistoryLine(captions[i]);
      }
      SplitJoin(lines);
    }
  }

  // ---------------------------------------------------------------------------
  // The objects

  /** The file system: text per path. */
  class Disk {
    var files: map<string, string>

    constructor (files: map<string, string>)
      ensures this.files == files
    {
      this.files := files;
    }

    /** `Path.write_text`: replaces the file's text, or raises for a path in `unwritable`. */
    method WriteText(path: string, text: string, unwritable: set<string>) returns (ok: bool)
      modifies this
      ensures ok == (path !in unwritable)
      ensures files == if ok then old(files)[path := text] else old(files)
    {
      if path in unwritable {
        return false;
      }
      files := files[path := text];
      return true;
    }
  }

  class FileOutput {
    const outputDir: string
    const disk: Disk
    /** `_last_text`: the last text written per feed. */
    var lastText: map<string, string>

    constructor (outputDir: string, disk: Disk)
      ensures this.outputDir == outputDir && this.disk == disk && lastText == map[]
    {
      this.outputDir := outputDir;
      this.disk := disk;
      lastText := map[];
    }

    function Cache(): CacheState
      reads this, disk
    {
      CacheState(lastText, disk.files)
    }

    /** `get_file_path`: the output directory, a slash, the feed id and `.txt`. */
    function GetFilePath(feedId: string): (p: string)
      ensures |p| == |outputDir| + |feedId| + 5
      ensures p[..|outputDir| + 1] == outputDir + "/"
      ensures p[|outputDir| + 1..|p| - 4] == feedId
      ensures p[|p| - 4..] == ".txt"
    {
      CaptionPath(outputDir, feedId)
    }

    /** `write_caption`. */
    method WriteCaption(feedId: string, text: string, unwritable: set<string>) returns (written: bool)
      modifies this`lastText, disk
      ensures WriteResult(written, Cache()) == WriteStep(old(Cache()), outputDir, feedId, text, unwritable)
    {
      if feedId in lastText && lastText[feedId] == text {
        return false;
      }
      var path := GetFilePath(feedId);
      written := disk.WriteText(path, text, unwritable);
      if written {
        lastText := lastText[feedId := text];
      }
    }

    /** `clear_caption`: exactly `write_caption(feed_id, "")`. */
    method ClearCaption(feedId: string, unwritable: set<string>) returns (cleared: bool)
      modifies this`lastText, disk
      ensures WriteResult(cleared, Cache()) == WriteStep(old(Cache()), outputDir, feedId, "", unwritable)
    {
      cleared := WriteCaption(feedId, "", unwritable);
    }

    /** `clear_all`: clears every feed that has ever been written. */
    method ClearAll(unwritable: set<string>)
      modifies this`lastText, disk
      ensures Cache() == ClearedOn(old(Cache()), outputDir, unwritable, old(lastText).Keys)
    {
      ghost var start := Cache();
      var pending := lastText.Keys;
      ghost var done: set<string> := {};
      assert ClearedOn(start, outputDir, unwritable, {}) == start by {
        assert BlankedPaths(start, outputDir, unwritable, {}) == {};
      }
      while pending != {}
        invariant pending + done == start.lastText.Keys && pending !! done
        invariant Cache() == ClearedOn(start, outputDir, unwritable, done)
        decreases pending
      {
        var f :| f in pending;
        ClearOneMore(start, outputDir, unwritable, done, f);
        var _ := ClearCaption(f, unwritable);
        pending := pending - {f};
        done := done + {f};
      }
    }

    /** `write_history`: the history file gets one line per caption, joined by newlines. */
    method WriteHistory(feedId: string, captions: seq<Caption>, unwritable: set<string>) returns (ok: bool)
      modifies disk
      ensures ok == (HistoryPath(outputDir, feedId) !in unwritable)
      ensures disk.files == if ok then old(disk.files)[HistoryPath(outputDir, feedId) := JoinLines(HistoryLines(captions))]
                            else old(disk.files)
    {
      var path := HistoryPath(outputDir, feedId);
      var lines: seq<string> := [];
      for i := 0 to |captions|
        invariant |lines| == i
        invariant forall j | 0 <= j < i :: lines[j] == HistoryLine(captions[j])
      {
        lines := lines + [HistoryLine(captions[i])];
      }
      assert lines == HistoryLines(captions);
      ok := disk.WriteText(path, JoinLines(lines), unwritable);
    }
  }

  /** Writing the same text twice writes once; clearing then blanks the file. */
  method WriteIfChangedScenario() {
    var disk := new Disk(map[]);
    var output := new FileOutput("output/captions", disk);
    var p := output.GetFilePath("test_feed");
    var written := output.WriteCaption("test_feed", "Hello", {});
    assert written && disk.files[p] == "Hello";
    written := output.WriteCaption("test_feed", "Hello", {});
    assert !written;
    written := output.ClearCaption("test_feed", {});
    assert written && disk.files[p] == "";
  }
}
