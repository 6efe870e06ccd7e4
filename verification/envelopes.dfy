/** The message envelope and the text the engine builds for it: the level tag
    the leveled methods prepend (qlog.go lines 123-152) and the optional caller
    prefix `writeMsg` adds (lines 107-120). */
module Envelopes {
  import opened Wrappers
  import opened Levels
  import opened Text

  /** `qlogbuffer`: the finished message text and its level. */
  datatype Envelope = Envelope(msg: string, level: Level)

  /** What `runtime.Caller` reports when it resolves a frame. */
  datatype Frame = Frame(file: string, line: int)

  /** The tag each leveled method puts in front of its format string. The tags
      contain no `%`, so `Sprintf(tag + format, args)` equals
      `tag + Sprintf(format, args)`. */
  function Tag(l: Level): (t: string)
    ensures |t| == 4 && '%' !in t
    ensures t[0] == '[' && t[2..] == "] "
  {
    match l
    case Trace => "[T] "
    case Debug => "[D] "
    case Info => "[I] "
    case Error => "[E] "
    case Warn => "[W] "
    case Critical => "[C] "
  }

  /** Reads a level back from the first four characters of a message. */
  function LevelOfTag(s: string): Option<Level>
  {
    if |s| < 4 then None
    else if s[..4] == "[T] " then Some(Trace)
    else if s[..4] == "[D] " then Some(Debug)
    else if s[..4] == "[I] " then Some(Info)
    else if s[..4] == "[E] " then Some(Error)
    else if s[..4] == "[W] " then Some(Warn)
    else if s[..4] == "[C] " then Some(Critical)
    else None
  }

  /** Every tag names its level uniquely: an untagged reader recovers the
      level from the start of any text the tag begins. */
  lemma TagIdentifiesLevel(l: Level, text: string)
    ensures LevelOfTag(Tag(l) + text) == Some(l)
  {
    assert (Tag(l) + text)[..4] == Tag(l);
  }

  /** `Sprintf("[%s:%d] ", basename, line)`: the directory is stripped, and
      the prefix loses neither the file name nor the line. */
  function CallerPrefix(f: Frame): (p: string)
    ensures Slash !in p
    ensures ParseCallerPrefix(p) == Some((Basename(f.file), f.line))
  {
    var base, dec := Basename(f.file), Decimal(f.line);
    PrefixReadsBack(base, dec, f.line);
    "[" + base + ":" + dec + "] "
  }

  lemma PrefixReadsBack(base: string, dec: string, line: int)
    requires dec == Decimal(line) && Slash !in base
    ensures Slash !in "[" + base + ":" + dec + "] "
    ensures ParseCallerPrefix("[" + base + ":" + dec + "] ") == Some((base, line))
  {
    PrefixSlashFree(base, dec);
    assert "[" + base + ":" + dec + "] " == "[" + (base + [':'] + dec) + "] ";
    ParseBracketed(base + [':'] + dec);
    ParseLocationRoundTrip(base, dec, line);
  }

  lemma PrefixSlashFree(base: string, dec: string)
    requires Slash !in base
    requires forall k :: 0 <= k < |dec| ==> dec[k] == '-' || IsDigit(dec[k])
    ensures Slash !in "[" + base + ":" + dec + "] "
  {
    assert Slash !in dec;
    var p := "[" + base + ":" + dec + "] ";
    assert p == "[" + base + (":" + dec + "] ");
  }

  /** Reads the file name and line back from a caller prefix. The file name may
      itself contain `:`, but the rendered line never does, so the last `:`
      is the separator. */
  function ParseCallerPrefix(p: string): Option<(string, int)>
  {
    if |p| >= 3 && p[0] == '[' && p[|p| - 2..] == "] " then ParseLocation(p[1..|p| - 2])
    else None
  }

  /** Reads `file:line` back, splitting at the last `:`. */
  function ParseLocation(inner: string): Option<(string, int)>
  {
    var colon := LastIndex(inner, ':');
    if colon.None? then None
    else
      var line := ParseDecimal(inner[colon.value + 1..]);
      if line.None? then None else Some((inner[..colon.value], line.value))
  }

  lemma ParseLocationRoundTrip(base: string, dec: string, line: int)
    requires dec == Decimal(line)
    ensures ParseLocation(base + [':'] + dec) == Some((base, line))
  {
    var inner := base + [':'] + dec;
    assert ':' !in dec;
    LastIndexBeforeTail(base, ':', dec);
    assert inner[|base| + 1..] == dec;
    assert inner[..|base|] == base;
    DecimalRoundTrip(line);
  }

  /** A caller prefix is fixed by what it reads back as: the only text that
      reads back as a file name and a line is `[file:line] ` with the line
      written by `%d`. */
  lemma ParseCallerPrefixExact(p: string, base: string, line: int)
    requires ParseCallerPrefix(p) == Some((base, line))
    ensures p == "[" + base + ":" + Decimal(line) + "] "
  {
    var inner := p[1..|p| - 2];
    BracketExact(p);
    ParseLocationExact(inner, base, line);
    assert "[" + base + ":" + Decimal(line) + "] " == "[" + (base + [':'] + Decimal(line)) + "] ";
  }

  lemma BracketExact(p: string)
    requires ParseCallerPrefix(p).Some?
    ensures p == "[" + p[1..|p| - 2] + "] "
    ensures ParseLocation(p[1..|p| - 2]) == ParseCallerPrefix(p)
  {
    assert p == [p[0]] + p[1..|p| - 2] + p[|p| - 2..];
  }

  lemma ParseLocationExact(inner: string, base: string, line: int)
    requires ParseLocation(inner) == Some((base, line))
    ensures inner == base + [':'] + Decimal(line)
  {
    var k := LastIndex(inner, ':').value;
    DecimalUnique(inner[k + 1..], line);
    assert inner == inner[..k] + [':'] + inner[k + 1..];
  }

  lemma ParseBracketed(inner: string)
    ensures ParseCallerPrefix("[" + inner + "] ") == ParseLocation(inner)
  {
    var p := "[" + inner + "] ";
    assert p[1..|p| - 2] == inner;
    assert p[|p| - 2..] == "] ";
  }

  /** `writeMsg`'s text: the caller prefix in front of the message when
      annotation is on and the frame resolved, the message itself otherwise. */
  function Annotate(msg: string, annotate: bool, frame: Option<Frame>): (r: string)
    ensures !annotate || frame.None? ==> r == msg
    ensures annotate && frame.Some? ==>
      |r| > |msg| && r[|r| - |msg|..] == msg
      && ParseCallerPrefix(r[..|r| - |msg|]) == Some((Basename(frame.value.file), frame.value.line))
  {
    if annotate && frame.Some? then
      var p := CallerPrefix(frame.value);
      assert (p + msg)[..|p|] == p;
      p + msg
    else msg
  }

  /** The envelope a leveled call builds from its formatted text. */
  function Compose(l: Level, text: string, annotate: bool, frame: Option<Frame>): (e: Envelope)
    ensures e.level == l
    ensures |e.msg| >= |Tag(l) + text| && e.msg[|e.msg| - |Tag(l) + text|..] == Tag(l) + text
    ensures !annotate || frame.None? ==> e.msg == Tag(l) + text && LevelOfTag(e.msg) == Some(l)
    ensures annotate && frame.Some? ==>
      ParseCallerPrefix(e.msg[..|e.msg| - |Tag(l) + text|]) == Some((Basename(frame.value.file), frame.value.line))
  {
    TagIdentifiesLevel(l, text);
    Envelope(Annotate(Tag(l) + text, annotate, frame), l)
  }
}
