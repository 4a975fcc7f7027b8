/**
  The UTF-8 encoding (RFC 3629), as far as reading a rollout needs it: decoding
  undoes encoding, and bytes may be cut behind a line feed without cutting a
  character.
 */
module Utf8 {
  import opened Common

  type Byte = b: int | 0 <= b < 256
  type Bytes = seq<Byte>

  const LINE_FEED: Byte := 10

  // The number of continuation bytes a scalar value needs, and the mark of its leading byte.
  function Width(v: nat): (w: nat)
    ensures w <= 3
  {
    if v < 0x80 then 0 else if v < 0x800 then 1 else if v < 0x10000 then 2 else 3
  }

  function Mark(w: nat): Byte {
    if w == 0 then 0 else if w == 1 then 0xC0 else if w == 2 then 0xE0 else 0xF0
  }

  // `v` without its last `n` six-bit groups, and those groups as continuation bytes.
  function Top(v: nat, n: nat): nat {
    if n == 0 then v else Top(v / 64, n - 1)
  }

  function Tail(v: nat, n: nat): (r: Bytes)
    ensures |r| == n
    ensures forall i :: 0 <= i < n ==> 0x80 <= r[i] < 0xC0
  {
    if n == 0 then [] else Tail(v / 64, n - 1) + [0x80 + v % 64]
  }

  function Lead(v: nat): (r: Byte)
    requires v < 0x110000
    ensures r == Mark(Width(v)) + Top(v, Width(v))
    ensures if v < 0x80 then r == v else r >= 0xC0
    ensures Width(v) == 1 ==> r < 0xE0
    ensures Width(v) == 2 ==> r < 0xF0
    ensures Width(v) == 3 ==> r < 0xF8
  {
    assert Top(v, 1) == v / 64;
    assert Top(v, 2) == Top(v / 64, 1) == v / 64 / 64;
    assert Top(v, 3) == Top(v / 64, 2) == Top(v / 64 / 64, 1) == v / 64 / 64 / 64;
    Mark(Width(v)) + Top(v, Width(v))
  }

  function EncodeChar(c: char): (r: Bytes)
    ensures 1 <= |r| <= 4
    ensures forall i :: 1 <= i < |r| ==> r[i] >= 0x80
    ensures r[0] == LINE_FEED <==> c == '\n'
    ensures |r| > 1 ==> r[0] >= 0xC0
  {
    [Lead(c as int)] + Tail(c as int, Width(c as int))
  }

  // The value whose leading part is `high` and whose last groups start the bytes.
  function Gather(high: nat, bytes: Bytes, n: nat): (r: Option<nat>)
    ensures r.Some? ==> n <= |bytes| && Top(r.value, n) == high && Tail(r.value, n) == bytes[..n]
  {
    if n == 0 then Some(high)
    else if |bytes| < n || !(0x80 <= bytes[n - 1] < 0xC0) then None
    else match Gather(high, bytes, n - 1)
      case None => None
      case Some(v) =>
        assert bytes[..n] == bytes[..n - 1] + [bytes[n - 1]];
        var all := v * 64 + (bytes[n - 1] - 0x80);
        assert all / 64 == v && all % 64 == bytes[n - 1] - 0x80;
        Some(all)
  }

  lemma {:induction false} GatherTail(v: nat, n: nat, rest: Bytes)
    ensures Gather(Top(v, n), Tail(v, n) + rest, n) == Some(v)
  {
    if n > 0 {
      GatherTail(v / 64, n - 1, [0x80 + v % 64] + rest);
      assert Tail(v, n) + rest == Tail(v / 64, n - 1) + ([0x80 + v % 64] + rest);
    }
  }

  function LeadWidth(b: Byte): Option<nat> {
    if b < 0x80 then Some(0)
    else if b < 0xC0 then None
    else if b < 0xE0 then Some(1)
    else if b < 0xF0 then Some(2)
    else if b < 0xF8 then Some(3)
    else None
  }

  // The first character; overlong forms, surrogates and values out of range are refused.
  function First(bytes: Bytes): (r: Option<char>)
    ensures r.Some? ==> |EncodeChar(r.value)| <= |bytes| && bytes[..|EncodeChar(r.value)|] == EncodeChar(r.value)
  {
    if bytes == [] then None
    else match LeadWidth(bytes[0])
      case None => None
      case Some(w) =>
        match Gather(bytes[0] - Mark(w), bytes[1..], w)
        case None => None
        case Some(v) =>
          if Width(v) != w || v >= 0x110000 || 0xD800 <= v < 0xE000 then None
          else
            assert bytes[..1 + w] == [bytes[0]] + bytes[1..][..w];
            Some(v as char)
  }

  function Encode(text: string): (r: Bytes)
    ensures |r| >= |text|
  {
    if text == "" then [] else EncodeChar(text[0]) + Encode(text[1..])
  }

  function Decode(bytes: Bytes): (r: Option<string>)
    ensures r.Some? ==> Encode(r.value) == bytes
    decreases |bytes|
  {
    if bytes == [] then Some("")
    else match First(bytes)
      case None => None
      case Some(c) =>
        match Decode(bytes[|EncodeChar(c)|..])
        case None => None
        case Some(rest) =>
          assert ([c] + rest)[1..] == rest;
          Some([c] + rest)
  }

  lemma FirstOfEncoded(c: char, rest: Bytes)
    ensures First(EncodeChar(c) + rest) == Some(c)
  {
    hide Top, Tail, Gather;
    var v := c as int;
    var bytes := EncodeChar(c) + rest;
    assert bytes[0] == Lead(v) && bytes[1..] == Tail(v, Width(v)) + rest;
    assert LeadWidth(bytes[0]) == Some(Width(v));
    GatherTail(v, Width(v), rest);
  }

  lemma {:induction false} DecodeEncode(text: string)
    ensures Decode(Encode(text)) == Some(text)
  {
    hide EncodeChar, First;
    if text != "" {
      FirstOfEncoded(text[0], Encode(text[1..]));
      DecodeEncode(text[1..]);
      assert Encode(text)[|EncodeChar(text[0])|..] == Encode(text[1..]);
      assert text == [text[0]] + text[1..];
    }
  }

  lemma {:induction false} EncodeAppend(a: string, b: string)
    ensures Encode(a + b) == Encode(a) + Encode(b)
  {
    hide EncodeChar;
    if a == "" {
      assert a + b == b;
    } else {
      assert (a + b)[1..] == a[1..] + b;
      EncodeAppend(a[1..], b);
    }
  }

  // The first character stays within bytes that end in a line feed.
  lemma FirstOfFront(front: Bytes, back: Bytes)
    requires front != [] && front[|front| - 1] == LINE_FEED && First(front + back).Some?
    ensures First(front) == First(front + back)
    ensures var n := |EncodeChar(First(front).value)|;
            n <= |front| && (n == |front| ==> First(front).value == '\n')
  {
    hide First, EncodeChar;
    var all := front + back;
    var c := First(all).value;
    var e := EncodeChar(c);
    assert all[..|e|] == e;
    assert all[|front| - 1] == LINE_FEED;
    if |e| <= |front| {
      assert e[|e| - 1] == front[|e| - 1];
      assert front == e + front[|e|..];
      FirstOfEncoded(c, front[|e|..]);
    }
  }

  // A line feed byte stands for a line feed and ends a character.
  lemma {:induction false} DecodeSplit(front: Bytes, back: Bytes)
    requires front != [] && front[|front| - 1] == LINE_FEED && Decode(front + back).Some?
    ensures Decode(front).Some? && Decode(back).Some?
    ensures Decode(front + back).value == Decode(front).value + Decode(back).value
    ensures Decode(front).value != "" && Decode(front).value[|Decode(front).value| - 1] == '\n'
    decreases |front|
  {
    hide EncodeChar, First;
    var all := front + back;
    assert First(all).Some?;
    FirstOfFront(front, back);
    var c := First(all).value;
    var n := |EncodeChar(c)|;
    assert all[n..] == front[n..] + back;
    if n < |front| {
      DecodeSplit(front[n..], back);
      var a, b := Decode(front[n..]).value, Decode(back).value;
      assert [c] + (a + b) == ([c] + a) + b;
    } else {
      assert front[n..] == [] && all[n..] == back;
    }
  }
}
