/**
 * The binary serializer of iotvp.cpp: a cursor over a caller-supplied byte
 * buffer. The cursor (`index`) and its floor (`start`) are both `uint8_t`,
 * so the cursor wraps modulo 256 while the addresses written to do not.
 */
module Serializator {
  import opened CoreTypes

  /** The abstract value of a serializer: every byte of the buffer and both cursors. */
  datatype Cursor = Cursor(bytes: seq<uint8>, start: uint8, index: uint8)

  /** `setStart(s)`: new floor, cursor rewound onto it, buffer untouched. */
  function Restarted(c: Cursor, s: uint8): (r: Cursor)
    ensures r.start == s && r.index == s
    ensures r.bytes == c.bytes
  {
    c.(start := s, index := s)
  }

  /** `reset()`: cursor rewound to the floor, floor and buffer untouched. */
  function Rewound(c: Cursor): (r: Cursor)
    ensures r.index == c.start && r.start == c.start
    ensures r.bytes == c.bytes
  {
    c.(index := c.start)
  }

  /**
   * `addData(d, |d|)`: the bytes of `d` land at `index ..`, nothing else in the
   * buffer changes, and the `uint8_t` cursor advances by `|d|` modulo 256.
   */
  function Appended(c: Cursor, d: seq<uint8>): (r: Cursor)
    requires |d| < 0x100
    requires c.index + |d| <= |c.bytes|
    ensures |r.bytes| == |c.bytes| && r.start == c.start
    ensures r.index == (c.index + |d|) % 0x100
    ensures r.bytes[c.index .. c.index + |d|] == d
    ensures forall k :: 0 <= k < |c.bytes| && !(c.index <= k < c.index + |d|) ==> r.bytes[k] == c.bytes[k]
  {
    var bytes := c.bytes[..c.index] + d + c.bytes[c.index + |d|..];
    assert bytes[c.index .. c.index + |d|] == d;
    Cursor(bytes, c.start, (c.index + |d|) % 0x100)
  }

  /** Sum of the lengths of a sequence of appended chunks. */
  function TotalLength(chunks: seq<seq<uint8>>): nat
  {
    if chunks == [] then 0 else |chunks[0]| + TotalLength(chunks[1..])
  }

  /** The chunks joined in order. */
  function Concat(chunks: seq<seq<uint8>>): seq<uint8>
  {
    if chunks == [] then [] else chunks[0] + Concat(chunks[1..])
  }

  /** A sequence of `addData` calls, in call order, none of which wraps the cursor. */
  function AppendAll(c: Cursor, chunks: seq<seq<uint8>>): (r: Cursor)
    requires c.index + TotalLength(chunks) <= |c.bytes|
    requires c.index + TotalLength(chunks) < 0x100
    ensures |r.bytes| == |c.bytes| && r.start == c.start
    ensures r.index == c.index + TotalLength(chunks)
    decreases |chunks|
  {
    if chunks == [] then c else AppendAll(Appended(c, chunks[0]), chunks[1..])
  }

  lemma {:induction false} ConcatLength(chunks: seq<seq<uint8>>)
    ensures |Concat(chunks)| == TotalLength(chunks)
    decreases |chunks|
  {
    if chunks != [] {
      ConcatLength(chunks[1..]);
    }
  }

  /**
   * Appending several chunks without wrap-around leaves their concatenation
   * between the old and the new cursor, and every byte outside that window
   * as it was.
   */
  lemma {:induction false} AppendAllWrites(c: Cursor, chunks: seq<seq<uint8>>)
    requires c.index + TotalLength(chunks) <= |c.bytes|
    requires c.index + TotalLength(chunks) < 0x100
    ensures |Concat(chunks)| == TotalLength(chunks)
    ensures forall k :: c.index <= k < c.index + TotalLength(chunks) ==>
      AppendAll(c, chunks).bytes[k] == Concat(chunks)[k - c.index]
    ensures forall k :: 0 <= k < |c.bytes| && !(c.index <= k < c.index + TotalLength(chunks)) ==>
      AppendAll(c, chunks).bytes[k] == c.bytes[k]
    decreases |chunks|
  {
    ConcatLength(chunks);
    if chunks != [] {
      var d := chunks[0];
      var c1 := Appended(c, d);
      var n := TotalLength(chunks);
      var r := AppendAll(c, chunks);
      assert r == AppendAll(c1, chunks[1..]);
      AppendAllWrites(c1, chunks[1..]);
      forall k | c.index <= k < c.index + n
        ensures r.bytes[k] == Concat(chunks)[k - c.index]
      {
        if k < c1.index {
          assert c1.bytes[c.index .. c.index + |d|][k - c.index] == c1.bytes[k];
        }
      }
    }
  }

  /**
   * After `setStart(s)` and any sequence of `addData` calls that stays within
   * the buffer and does not wrap, `getSize()` is `s` plus the total length and
   * the bytes from `s` on are the appended bytes in call order.
   */
  lemma AppendsFromStart(c: Cursor, s: uint8, chunks: seq<seq<uint8>>)
    requires s + TotalLength(chunks) <= |c.bytes|
    requires s + TotalLength(chunks) < 0x100
    ensures AppendAll(Restarted(c, s), chunks).index == s + TotalLength(chunks)
    ensures AppendAll(Restarted(c, s), chunks).bytes[s .. s + TotalLength(chunks)] == Concat(chunks)
    ensures AppendAll(Restarted(c, s), chunks).start == s
  {
    var r := AppendAll(Restarted(c, s), chunks);
    AppendAllWrites(Restarted(c, s), chunks);
    assert r.bytes[s .. s + TotalLength(chunks)] == Concat(chunks);
  }

  /**
   * `reset()` then `addData(x)` yields the same cursor and the same bytes in
   * `[start, start + |x|)` as `addData(x)` right after a fresh `setStart`,
   * whatever was written before.
   */
  lemma ResetThenAppend(c: Cursor, other: Cursor, x: seq<uint8>)
    requires |x| < 0x100
    requires c.start + |x| <= |c.bytes| && c.start + |x| <= |other.bytes|
    ensures Appended(Rewound(c), x).index == Appended(Restarted(other, c.start), x).index
    ensures Appended(Rewound(c), x).start == Appended(Restarted(other, c.start), x).start
    ensures Appended(Rewound(c), x).bytes[c.start .. c.start + |x|] == x
    ensures Appended(Restarted(other, c.start), x).bytes[c.start .. c.start + |x|] == x
  {
  }

  /**
   * Appending right after a written prefix without wrapping: the written part
   * becomes the prefix followed by the new bytes.
   */
  lemma AppendedAfterPrefix(c: Cursor, prefix: seq<uint8>, x: seq<uint8>)
    requires c.index == |prefix| && c.index + |x| < 0x100 && c.index + |x| <= |c.bytes|
    requires c.bytes[..c.index] == prefix
    ensures Appended(c, x).index == |prefix| + |x|
    ensures Appended(c, x).bytes[..|prefix| + |x|] == prefix + x
    ensures Appended(c, x).bytes[..|prefix|] == prefix
  {
    var r := Appended(c, x);
    assert r.bytes[..r.index] == r.bytes[..c.index] + r.bytes[c.index..r.index];
  }

  /**
   * `BS_getData(uint8_t)` in a handler: the byte under the local `data`
   * pointer, and the pointer advanced by `sizeof(uint8_t)`, so that the byte
   * followed by what is left is what was there.
   */
  method GetUint8(payload: seq<uint8>, data: nat) returns (v: uint8, next: nat)
    requires data < |payload|
    ensures next == data + 1
    ensures v == payload[data]
    ensures [v] + payload[next..] == payload[data..]
  {
    v := payload[data];
    next := data + 1;
  }

  /** `BinarySerializator`: the buffer is the caller's, written in place. */
  class BinarySerializator {
    var start: uint8
    var index: uint8
    var buffer: array<uint8>

    ghost function View(): Cursor
      reads this, buffer
    {
      Cursor(buffer[..], start, index)
    }

    /** `BinarySerializator(buffer, start)`, which runs `setup`. */
    constructor (buffer: array<uint8>, start: uint8)
      ensures this.buffer == buffer
      ensures View() == Cursor(buffer[..], start, start)
    {
      this.buffer := buffer;
      this.start := start;
      this.index := start;
    }

    /** `BinarySerializator(buffer)`: the same as a floor of 0. */
    constructor FromBuffer(buffer: array<uint8>)
      ensures this.buffer == buffer
      ensures View() == Cursor(buffer[..], 0, 0)
    {
      this.buffer := buffer;
      this.start := 0;
      this.index := 0;
    }

    /** `setup(buffer, start)`: rebinds the buffer, then `setStart(start)`. */
    method Setup(buffer: array<uint8>, start: uint8)
      modifies this
      ensures this.buffer == buffer
      ensures View() == Restarted(Cursor(buffer[..], old(this.start), old(index)), start)
    {
      this.buffer := buffer;
      SetStart(start);
    }

    method SetStart(s: uint8)
      modifies this
      ensures buffer == old(buffer)
      ensures View() == Restarted(old(View()), s)
    {
      start := s;
      index := start;
    }

    /**
     * `addData(data, size)`: copies `data[0 .. size)` to `buffer[index ..]`
     * one byte at a time, then advances the `uint8_t` cursor. The caller
     * guarantees the window fits the buffer; nothing checks it at run time.
     */
    method AddData(data: seq<uint8>, size: uint8)
      requires size <= |data|
      requires index + size <= buffer.Length
      modifies this, buffer
      ensures buffer == old(buffer)
      ensures View() == Appended(old(View()), data[..size])
    {
      ghost var before := buffer[..];
      for i := 0 to size
        modifies buffer
        invariant buffer[..] == before[..index] + data[..i] + before[index + i..]
      {
        buffer[index + i] := data[i];
        assert data[..i + 1] == data[..i] + [data[i]];
      }
      index := (index + size) % 0x100;
    }

    method Reset()
      modifies this
      ensures buffer == old(buffer)
      ensures View() == Rewound(old(View()))
    {
      index := start;
    }

    /** `getData()`: the buffer itself, not a copy. */
    method GetData() returns (b: array<uint8>)
      ensures b == buffer
    {
      b := buffer;
    }

    /** `getSize()`: the exclusive end of what has been written. */
    method GetSize() returns (n: uint8)
      ensures n == index
      ensures n <= buffer.Length ==> buffer[..n] == View().bytes[..View().index]
    {
      n := index;
    }
  }
}
