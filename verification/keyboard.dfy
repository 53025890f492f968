/**
 * The keyboard ring shared between the bootloader's interrupt handler (the
 * writer, not modelled) and the kernels (the reader): 256 bytes of scancodes
 * with an 8-bit write index and an 8-bit read index, both wrapping modulo 256.
 * Also the set-1 scancode table the kernels use to turn make codes into ASCII.
 */
module Keyboard {
  import opened Wrappers
  import opened VgaText

  const RingSize: int := 256

  /** An `unsigned char`. */
  type Byte = b: int | 0 <= b < 256

  class Ring {
    var writeIdx: Byte
    var readIdx: Byte
    const buffer: array<Byte>

    ghost predicate Valid()
      reads this
    {
      buffer.Length == RingSize
    }

    constructor (buffer: array<Byte>)
      requires buffer.Length == RingSize
      ensures Valid() && this.buffer == buffer && writeIdx == 0 && readIdx == 0
    {
      this.buffer := buffer;
      writeIdx, readIdx := 0, 0;
    }

    /** How many scancodes the writer has stored that the reader has not yet taken. */
    function Pending(): (n: int)
      reads this
      ensures 0 <= n < RingSize
      ensures n == 0 <==> writeIdx == readIdx
    {
      (writeIdx - readIdx) % RingSize
    }

    /** The pending scancodes, oldest first. */
    ghost function Unread(): (s: seq<Byte>)
      requires Valid()
      reads this, buffer
      ensures |s| == Pending()
    {
      Window(buffer[..], readIdx, Pending())
    }

    /** `terminal_has_input` / `kb_available`: the indices differ. */
    function HasInput(): (b: bool)
      reads this
      ensures b <==> Pending() > 0
    {
      writeIdx != readIdx
    }

    /**
     * `terminal_read_char` / `kb_read`: the byte at the read index, which then
     * advances modulo 256.  With input pending this takes the oldest scancode;
     * on an empty ring the stale byte is returned and the ring then claims 255
     * pending scancodes.
     */
    method Read() returns (sc: Byte)
      requires Valid()
      modifies this`readIdx
      ensures Valid()
      ensures readIdx == (old(readIdx) + 1) % RingSize
      ensures sc == buffer[old(readIdx)]
      ensures old(HasInput()) ==> sc == old(Unread())[0] && Unread() == old(Unread())[1..]
      ensures !old(HasInput()) ==> Pending() == RingSize - 1
    {
      var idx := readIdx;
      sc := buffer[idx];
      readIdx := (idx + 1) % RingSize;
      if old(HasInput()) {
        PendingAfterRead(writeIdx, idx);
        assert Pending() == old(Pending()) - 1;
        WindowAdvance(buffer[..], idx, old(Pending()));
      }
    }
  }

  /** The `n` bytes of the ring `b` from index `start` on, wrapping at the end. */
  function Window(b: seq<Byte>, start: int, n: int): (w: seq<Byte>)
    requires |b| == RingSize && 0 <= start < RingSize && 0 <= n < RingSize
    ensures |w| == n
  {
    (b + b)[start .. start + n]
  }

  /** Taking the first byte of a window leaves the window one further on. */
  lemma WindowAdvance(b: seq<Byte>, start: int, n: int)
    requires |b| == RingSize && 0 <= start < RingSize && 0 < n < RingSize
    ensures Window(b, start, n)[0] == b[start]
    ensures Window(b, (start + 1) % RingSize, n - 1) == Window(b, start, n)[1..]
  {
    var both := b + b;
    assert both[start] == b[start];
    if start + 1 < RingSize {
      assert both[start + 1 .. start + n] == both[start .. start + n][1..];
    } else {
      forall k | 0 <= k < n - 1
        ensures both[k] == both[start .. start + n][1..][k]
      {
        assert both[start + 1 + k] == b[k];
      }
    }
  }

  /** Reading with input pending leaves one scancode fewer pending. */
  lemma PendingAfterRead(w: Byte, r: Byte)
    requires w != r
    ensures (w - (r + 1) % RingSize) % RingSize == (w - r) % RingSize - 1
  {
  }

  /** The 58-entry make-code table of kernel.c and kernel_micropython.c, row by row; 0 marks keys with no ASCII. */
  const Row1: seq<char> := [0 as char, 0 as char, '1', '2', '3', '4', '5', '6', '7', '8', '9', '0', '-', '=', 8 as char]
  const Row2: seq<char> := ['\t', 'q', 'w', 'e', 'r', 't', 'y', 'u', 'i', 'o', 'p', '[', ']', '\n']
  const Row3: seq<char> := [0 as char, 'a', 's', 'd', 'f', 'g', 'h', 'j', 'k', 'l', ';', '\'', '`']
  const Row4: seq<char> := [0 as char, '\\', 'z', 'x', 'c', 'v', 'b', 'n', 'm', ',', '.', '/', 0 as char]
  const Row5: seq<char> := ['*', 0 as char, ' ']
  const ScancodeTable: seq<char> := Row1 + Row2 + Row3 + Row4 + Row5

  /** Every entry of the table is a 7-bit character. */
  lemma TableIsAscii()
    ensures |ScancodeTable| == 58
    ensures forall i :: 0 <= i < |ScancodeTable| ==> ScancodeTable[i] as int < 128
  {
    assert forall i :: 0 <= i < |Row1| ==> Row1[i] as int < 128;
    assert forall i :: 0 <= i < |Row2| ==> Row2[i] as int < 128;
    assert forall i :: 0 <= i < |Row3| ==> Row3[i] as int < 128;
    assert forall i :: 0 <= i < |Row4| ==> Row4[i] as int < 128;
    assert forall i :: 0 <= i < |Row5| ==> Row5[i] as int < 128;
  }

  /** kernel.c `sc_to_ascii`: the table entry, or 0 past the table's end. */
  function ScToAscii(sc: Byte): (c: Ascii)
    ensures sc < |ScancodeTable| ==> c == ScancodeTable[sc]
    ensures sc >= |ScancodeTable| ==> c == NUL
  {
    TableIsAscii();
    if sc < |ScancodeTable| then ScancodeTable[sc] else NUL
  }

  /**
   * kernel_micropython.c `scancode_to_ascii`: the Python integer is first
   * truncated to an `unsigned char`; the result is a one-character string for
   * a non-zero table entry and None otherwise.
   */
  function ScancodeToAscii(scancode: int): (r: Option<seq<Ascii>>)
    ensures r.Some? <==> scancode % 256 < |ScancodeTable| && ScancodeTable[scancode % 256] != NUL
    ensures r.Some? ==> r.value == [ScancodeTable[scancode % 256]] && r.value[0] != NUL
  {
    TableIsAscii();
    var sc := scancode % 256;
    if sc < |ScancodeTable| && ScancodeTable[sc] != NUL then Some([ScancodeTable[sc]]) else None
  }

  /** The two lookups agree on every byte: None exactly where sc_to_ascii gives 0. */
  lemma LookupsAgree(sc: Byte)
    ensures ScancodeToAscii(sc) == if ScToAscii(sc) == NUL then None else Some([ScToAscii(sc)])
  {
    assert sc % 256 == sc;
  }

  /** The Python-side lookup only sees the low byte of its argument. */
  lemma LookupTruncates(scancode: int)
    ensures ScancodeToAscii(scancode) == ScancodeToAscii(scancode % 256)
  {
    assert (scancode % 256) % 256 == scancode % 256;
  }

  /** Keys of a US layout: Enter, backspace, space, tab, q and 1; Esc, Caps Lock and a key release give nothing. */
  lemma ScancodeExamples()
    ensures ScToAscii(0x1C) == '\n' && ScToAscii(0x0E) == BS && ScToAscii(0x39) == ' '
    ensures ScToAscii(0x0F) == '\t' && ScToAscii(0x10) == 'q' && ScToAscii(0x02) == '1'
    ensures ScToAscii(0x01) == NUL && ScToAscii(0x3A) == NUL && ScToAscii(0x9C) == NUL
  {
  }

  /** 0x11C reaches the Python-side lookup as its low byte 0x1C, Enter. */
  lemma TruncatedEnter()
    ensures ScancodeToAscii(0x11C) == Some(['\n'])
  {
    LookupTruncates(0x11C);
    assert 0x11C % 256 == 0x1C;
    LookupsAgree(0x1C);
    assert ScancodeTable[0x1C] == Row2[13] == '\n';
    var enter := ScToAscii(0x1C);
    assert enter == '\n';
    assert [enter] == ['\n'];
  }
}
