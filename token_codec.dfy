/**
 * The compact serialisation of a signed token, as a sequence of text fields.
 * Each field is written with `.` and `\` escaped by a preceding `\`, and is
 * terminated by an unescaped `.`, so a serialised token reads back uniquely.
 */
module TokenCodec {
  import opened Wrappers

  function EscapeChar(c: char): (r: string)
    ensures |r| >= 1
  {
    if c == '.' || c == '\\' then ['\\', c] else [c]
  }

  function Escape(s: string): (r: string)
    ensures |r| >= |s|
  {
    if s == [] then [] else EscapeChar(s[0]) + Escape(s[1..])
  }

  /** Reads one field up to the first unescaped `.`; yields the field and what follows the `.`. */
  function ReadField(s: string): Option<(string, string)>
    decreases |s|
  {
    if s == [] then None
    else if s[0] == '.' then Some(([], s[1..]))
    else if s[0] == '\\' then
      if |s| < 2 then None
      else match ReadField(s[2..]) {
        case None => None
        case Some(p) => Some(([s[1]] + p.0, p.1))
      }
    else match ReadField(s[1..]) {
      case None => None
      case Some(p) => Some(([s[0]] + p.0, p.1))
    }
  }

  /** The escaped field followed by its terminator reads back as the field. */
  lemma {:induction false} ReadEscaped(f: string, rest: string)
    ensures ReadField(Escape(f) + "." + rest) == Some((f, rest))
  {
    if f == [] {
      assert Escape(f) + "." + rest == ['.'] + rest;
    } else {
      var tail := Escape(f[1..]) + "." + rest;
      ReadEscaped(f[1..], rest);
      assert Escape(f) + "." + rest == EscapeChar(f[0]) + tail;
      ReadEscapedChar(f[0], tail, f[1..], rest);
      assert [f[0]] + f[1..] == f;
    }
  }

  /** An escaped character in front of a field becomes the field's first character. */
  lemma ReadEscapedChar(c: char, tail: string, g: string, rest: string)
    requires ReadField(tail) == Some((g, rest))
    ensures ReadField(EscapeChar(c) + tail) == Some(([c] + g, rest))
  {
    if c == '.' || c == '\\' {
      assert (['\\', c] + tail)[2..] == tail;
    } else {
      assert ([c] + tail)[1..] == tail;
    }
  }

  function EncodeFields(fs: seq<string>): (s: string)
    ensures |s| >= |fs|
  {
    if fs == [] then [] else Escape(fs[0]) + "." + EncodeFields(fs[1..])
  }

  /** Reads `n` fields; yields them and the unread remainder. */
  function DecodeFields(s: string, n: nat): (r: Option<(seq<string>, string)>)
    ensures r.Some? ==> |r.value.0| == n
    decreases n
  {
    if n == 0 then Some(([], s))
    else match ReadField(s) {
      case None => None
      case Some(p) =>
        match DecodeFields(p.1, n - 1) {
          case None => None
          case Some(q) => Some(([p.0] + q.0, q.1))
        }
    }
  }

  /** Decoding an encoding gives back every field and the remainder. */
  lemma {:induction false} DecodeEncode(fs: seq<string>, rest: string)
    ensures DecodeFields(EncodeFields(fs) + rest, |fs|) == Some((fs, rest))
  {
    if fs == [] {
      assert EncodeFields(fs) + rest == rest;
    } else {
      var tail := EncodeFields(fs[1..]) + rest;
      EncodeCons(fs, rest);
      ReadEscaped(fs[0], tail);
      DecodeEncode(fs[1..], rest);
      DecodeCons(fs, rest, EncodeFields(fs) + rest, tail);
    }
  }

  lemma EncodeCons(fs: seq<string>, rest: string)
    requires fs != []
    ensures EncodeFields(fs) + rest == Escape(fs[0]) + "." + (EncodeFields(fs[1..]) + rest)
  {
  }

  lemma DecodeCons(fs: seq<string>, rest: string, s: string, tail: string)
    requires fs != []
    requires ReadField(s) == Some((fs[0], tail))
    requires DecodeFields(tail, |fs| - 1) == Some((fs[1..], rest))
    ensures DecodeFields(s, |fs|) == Some((fs, rest))
  {
    assert [fs[0]] + fs[1..] == fs;
  }
}
