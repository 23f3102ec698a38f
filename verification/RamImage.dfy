/** Loading the waveform image: checksum, chunked write, chunked read-back check, and
    recovery of the waveform count from the RAM itself. */
module RamImage {
  import opened CInt
  import opened FifoThreshold

  const CELLS := 0x1_0000     // the RAM address registers hold 16 bits
  const RD_BUFFER := 1024     // AW_RAMDATA_RD_BUFFER_SIZE
  const WR_BUFFER := 2048     // AW_RAMDATA_WR_BUFFER_SIZE
  const RAM_SHIFT := 4

  type Ram = s: seq<byte> | |s| == CELLS witness seq(CELLS, _ => 0)

  /** The cell an access k bytes after address a reaches. */
  function At(a: nat, k: nat): (r: nat)
    ensures r < CELLS
  {
    (a + k) % CELLS
  }

  function BigEndian(high: int, low: int): int {
    high * 256 + low
  }

  // ---------------------------------------------------------------- the chip

  /** A stuck cell ignores what is written to it. */
  function Cell(stuck: map<nat, byte>, a: nat, b: byte): byte {
    if a in stuck then stuck[a] else b
  }

  /** A burst write at an auto-incrementing address. */
  function Put(ram: Ram, stuck: map<nat, byte>, a: nat, data: seq<byte>): Ram
    requires a < CELLS
    decreases |data|
  {
    if data == [] then ram
    else Put(ram[a := Cell(stuck, a, data[0])], stuck, At(a, 1), data[1..])
  }

  /** A burst read at an auto-incrementing address. */
  function Get(ram: Ram, a: nat, n: nat): (r: seq<byte>) {
    seq(n, i requires 0 <= i < n => ram[At(a, i)])
  }

  lemma {:induction false} PutConcat(ram: Ram, stuck: map<nat, byte>, a: nat, x: seq<byte>, y: seq<byte>)
    requires a < CELLS
    ensures Put(Put(ram, stuck, a, x), stuck, At(a, |x|), y) == Put(ram, stuck, a, x + y)
    decreases |x|
  {
    if x == [] {
      assert x + y == y;
    } else {
      PutConcat(ram[a := Cell(stuck, a, x[0])], stuck, At(a, 1), x[1..], y);
      assert (x + y)[0] == x[0] && (x + y)[1..] == x[1..] + y;
      AtAdd(a, 1, |x[1..]|);
    }
  }

  lemma PutStep(ram: Ram, stuck: map<nat, byte>, a: nat, data: seq<byte>, k: nat)
    requires a < CELLS && k < |data|
    ensures Put(ram, stuck, a, data[k..])
            == Put(ram[a := Cell(stuck, a, data[k])], stuck, At(a, 1), data[k + 1..])
  {
    assert data[k..][1..] == data[k + 1..];
  }

  lemma GetStep(ram: Ram, a: nat, k: nat)
    ensures Get(ram, a, k) + [ram[At(a, k)]] == Get(ram, a, k + 1)
  {
  }

  lemma GetConcat(ram: Ram, a: nat, m: nat, n: nat)
    ensures Get(ram, a, m) + Get(ram, At(a, m), n) == Get(ram, a, m + n)
  {
  }

  lemma {:induction false} PutKeeps(ram: Ram, stuck: map<nat, byte>, a: nat, data: seq<byte>, c: nat)
    requires a < CELLS && c < CELLS
    requires forall k :: 0 <= k < |data| ==> At(a, k) != c
    ensures Put(ram, stuck, a, data)[c] == ram[c]
    decreases |data|
  {
    if data != [] {
      assert At(a, 0) != c;
      forall k | 0 <= k < |data[1..]| ensures At(At(a, 1), k) != c {
        assert At(At(a, 1), k) == At(a, k + 1);
      }
      PutKeeps(ram[a := Cell(stuck, a, data[0])], stuck, At(a, 1), data[1..], c);
    }
  }

  /** The last write to an address is the one that stays. */
  lemma {:induction false} PutLast(ram: Ram, stuck: map<nat, byte>, a: nat, data: seq<byte>, i: nat)
    requires a < CELLS && i < |data| <= i + CELLS
    ensures Put(ram, stuck, a, data)[At(a, i)] == Cell(stuck, At(a, i), data[i])
    decreases |data|
  {
    var ram' := ram[a := Cell(stuck, a, data[0])];
    if i == 0 {
      forall k | 0 <= k < |data[1..]| ensures At(At(a, 1), k) != a {
      }
      PutKeeps(ram', stuck, At(a, 1), data[1..], a);
    } else {
      PutLast(ram', stuck, At(a, 1), data[1..], i - 1);
      assert At(At(a, 1), i - 1) == At(a, i);
    }
  }

  /** The image repeats itself wherever it wraps around the whole RAM. */
  ghost predicate WrapsOntoItself(data: seq<byte>) {
    forall i :: 0 <= i && i + CELLS < |data| ==> data[i] == data[i + CELLS]
  }

  /** No stuck cell under the image differs from it. */
  ghost predicate CellsHold(stuck: map<nat, byte>, a: nat, data: seq<byte>) {
    forall i :: 0 <= i < |data| ==> Cell(stuck, At(a, i), data[i]) == data[i]
  }

  lemma {:induction false} PutAt(ram: Ram, stuck: map<nat, byte>, a: nat, data: seq<byte>, i: nat)
    requires a < CELLS && i < |data| && WrapsOntoItself(data)
    ensures Put(ram, stuck, a, data)[At(a, i)] == Cell(stuck, At(a, i), data[i])
    decreases |data| - i
  {
    if i + CELLS < |data| {
      PutAt(ram, stuck, a, data, i + CELLS);
      assert At(a, i + CELLS) == At(a, i);
    } else {
      PutLast(ram, stuck, a, data, i);
    }
  }

  predicate ReadsBack(ram: Ram, a: nat, data: seq<byte>) {
    Get(ram, a, |data|) == data
  }

  lemma ReadBackRepeats(ram: Ram, a: nat, data: seq<byte>)
    requires ReadsBack(ram, a, data)
    ensures WrapsOntoItself(data)
  {
    var got := Get(ram, a, |data|);
    forall i | 0 <= i && i + CELLS < |data| ensures data[i] == data[i + CELLS] {
      assert got[i] == ram[At(a, i)] && got[i + CELLS] == ram[At(a, i + CELLS)];
      assert At(a, i + CELLS) == At(a, i);
    }
  }

  /** Exactly when the RAM reads back as the payload that was written. */
  lemma ReadBackIff(ram: Ram, stuck: map<nat, byte>, a: nat, data: seq<byte>)
    requires a < CELLS
    ensures ReadsBack(Put(ram, stuck, a, data), a, data) <==> WrapsOntoItself(data) && CellsHold(stuck, a, data)
  {
    var ram' := Put(ram, stuck, a, data);
    if ReadsBack(ram', a, data) {
      ReadBackRepeats(ram', a, data);
    }
    if WrapsOntoItself(data) {
      var got := Get(ram', a, |data|);
      forall i | 0 <= i < |data|
        ensures got[i] == Cell(stuck, At(a, i), data[i])
      {
        PutAt(ram, stuck, a, data, i);
      }
    }
  }

  lemma AtAdd(a: nat, j: nat, k: nat)
    ensures At(At(a, j), k) == At(a, j + k)
  {
  }

  /** Writing the next chunk extends the written prefix. */
  lemma WriteStep(ram: Ram, stuck: map<nat, byte>, a: nat, data: seq<byte>, i: nat, len: nat)
    requires a < CELLS && i + len <= |data|
    ensures Put(Put(ram, stuck, a, data[..i]), stuck, At(a, i), data[i..i + len]) == Put(ram, stuck, a, data[..i + len])
    ensures At(At(a, i), len) == At(a, i + len)
  {
    PutConcat(ram, stuck, a, data[..i], data[i..i + len]);
    assert data[..i] + data[i..i + len] == data[..i + len];
    AtAdd(a, i, len);
  }

  /** Reading a matching chunk extends the matched prefix. */
  lemma ReadStep(ram: Ram, a: nat, data: seq<byte>, i: nat, len: nat)
    requires i + len <= |data|
    requires Get(ram, a, i) == data[..i] && Get(ram, At(a, i), len) == data[i..i + len]
    ensures Get(ram, a, i + len) == data[..i + len]
    ensures At(At(a, i), len) == At(a, i + len)
  {
    GetConcat(ram, a, i, len);
    assert data[..i] + data[i..i + len] == data[..i + len];
    AtAdd(a, i, len);
  }

  /** One differing chunk makes the whole comparison differ. */
  lemma ChunkDiffers(ram: Ram, a: nat, data: seq<byte>, i: nat, len: nat)
    requires i + len <= |data| && Get(ram, At(a, i), len) != data[i..i + len]
    ensures Get(ram, a, |data|) != data
  {
    var got := Get(ram, a, |data|);
    GetConcat(ram, a, i, len);
    GetConcat(ram, a, i + len, |data| - i - len);
    assert got[i..i + len] == Get(ram, At(a, i), len);
  }

  // ------------------------------------------------------------ the checksum

  function ByteSum(s: seq<byte>): nat {
    if s == [] then 0 else s[0] + ByteSum(s[1..])
  }

  function Header(image: seq<byte>): int
    requires |image| >= 2
  {
    BigEndian(image[0], image[1])
  }

  predicate Accepts(image: seq<byte>)
    requires |image| >= 2
  {
    ByteSum(image[2..]) % 0x1_0000 == Header(image)
  }

  lemma {:induction false} ByteSumConcat(s: seq<byte>, t: seq<byte>)
    ensures ByteSum(s + t) == ByteSum(s) + ByteSum(t)
  {
    if s == [] {
      assert s + t == t;
    } else {
      ByteSumConcat(s[1..], t);
      assert (s + t)[1..] == s[1..] + t;
    }
  }

  lemma SumStep(image: seq<byte>, i: nat)
    requires 2 <= i < |image|
    ensures (ByteSum(image[2..i]) % 0x1_0000 + image[i]) % 0x1_0000 == ByteSum(image[2..i + 1]) % 0x1_0000
  {
    assert image[2..i + 1] == image[2..i] + [image[i]];
    ByteSumConcat(image[2..i], [image[i]]);
    assert ByteSum([image[i]]) == image[i] by { assert [image[i]][1..] == []; }
    ModAdd(ByteSum(image[2..i]), image[i]);
  }

  lemma ModAdd(x: int, b: int)
    ensures (x % 0x1_0000 + b) % 0x1_0000 == (x + b) % 0x1_0000
  {
    DivIs(x + b, 0x1_0000, x / 0x1_0000 + (x % 0x1_0000 + b) / 0x1_0000);
  }

  lemma {:induction false} ByteSumUpdate(s: seq<byte>, i: nat, b: byte)
    requires i < |s|
    ensures ByteSum(s[i := b]) == ByteSum(s) - s[i] + b
  {
    if i > 0 {
      ByteSumUpdate(s[1..], i - 1, b);
      assert s[i := b][1..] == s[1..][i - 1 := b];
    } else {
      assert s[0 := b][1..] == s[1..];
    }
  }

  /** Changing any one byte of an accepted image, header or payload, is caught. */
  lemma OneByteChangeCaught(image: seq<byte>, i: nat, b: byte)
    requires 2 <= |image| && i < |image| && Accepts(image) && b != image[i]
    ensures !Accepts(image[i := b])
  {
    if i < 2 {
      assert image[i := b][2..] == image[2..];
    } else {
      assert image[i := b][2..] == image[2..][i - 2 := b];
      ByteSumUpdate(image[2..], i - 2, b);
      SmallShift(ByteSum(image[2..]), b - image[i]);
    }
  }

  lemma SmallShift(x: int, d: int)
    requires 0 < d < 256 || -256 < d < 0
    ensures (x + d) % 0x1_0000 != x % 0x1_0000
  {
  }

  /** Exchanging two payload bytes is not: even the base address may be byte-swapped. */
  lemma SwapNotCaught(image: seq<byte>, i: nat, j: nat)
    requires 2 <= i < |image| && 2 <= j < |image| && Accepts(image)
    ensures Accepts(image[i := image[j]][j := image[i]])
  {
    var mid := image[i := image[j]];
    assert mid[2..] == image[2..][i - 2 := image[j]];
    assert mid[j := image[i]][2..] == mid[2..][j - 2 := image[i]];
    ByteSumUpdate(image[2..], i - 2, image[j]);
    ByteSumUpdate(mid[2..], j - 2, image[i]);
  }

  // ----------------------------------------------------------- waveform count

  /** ram_num: unsigned 32-bit subtraction, then truncation to a byte. */
  function WaveCount(first: int, base: int): byte {
    U8(U32(first - base - 1) / 4)
  }

  /** The header is big-endian: the high byte of the sum comes first. */
  lemma AcceptsIff(image: seq<byte>)
    requires |image| >= 2
    ensures var sum := ByteSum(image[2..]);
            Accepts(image) <==> image[0] == sum / 256 % 256 && image[1] == sum % 256
  {
    BytesOf(ByteSum(image[2..]), image[0], image[1]);
  }

  lemma BytesOf(sum: nat, high: byte, low: byte)
    ensures sum % 0x1_0000 == high * 256 + low <==> high == sum / 256 % 256 && low == sum % 256
  {
    assert sum % 0x1_0000 == sum / 256 % 256 * 256 + sum % 256;
  }

  /** The address in the table's first entry, high byte first, gives the count. */
  lemma CountFromTable(base: uint16, high: byte, low: byte, n: nat)
    requires high * 256 + low == base + 1 + 4 * n
    ensures WaveCount(BigEndian(high, low), base) == n <==> n <= 255
  {
    WaveCountIff(base, n);
  }

  /** An image whose first waveform follows n four-byte table entries is counted right
      exactly up to 255 waveforms. */
  lemma WaveCountIff(base: uint16, n: nat)
    requires base + 1 + 4 * n < 0x1_0000
    ensures WaveCount(base + 1 + 4 * n, base) == n <==> n <= 255
  {
  }

  /** Any other first address counts the table entries that end below it. */
  lemma WaveCountRange(base: uint16, first: uint16, n: byte)
    requires base < first <= base + 1024
    ensures WaveCount(first, base) == n <==> 4 * n < first - base <= 4 * n + 4
  {
  }

  function Payload(image: seq<byte>): seq<byte>
    requires |image| >= RAM_SHIFT
  {
    image[RAM_SHIFT..]
  }

  lemma PayloadSlice(image: seq<byte>, i: nat, len: nat)
    requires RAM_SHIFT <= i && i + len <= |image|
    ensures image[i..i + len] == Payload(image)[i - RAM_SHIFT..i - RAM_SHIFT + len]
  {
  }

  lemma HeadOfPayload(ram: Ram, a: nat, image: seq<byte>)
    requires |image| >= 7 && Get(ram, a, |Payload(image)|) == Payload(image)
    ensures Get(ram, a, 3)[1] == image[5] && Get(ram, a, 3)[2] == image[6]
  {
    var got := Get(ram, a, |Payload(image)|);
    assert got[1] == image[5] && got[2] == image[6];
  }

  function BaseAddr(image: seq<byte>): uint16
    requires |image| >= RAM_SHIFT
  {
    BigEndian(image[2], image[3])
  }

  // --------------------------------------------------------------- the driver

  class Haptic {
    var cells: array<byte>
    const stuck: map<nat, byte>
    var ramAddr: nat            // RAMADDRH/L, incremented by every RAMDATA access
    var cfg: Cfg                // RTPCFG3-5
    var baseAddr: uint32
    var ramLen: uint32
    var checkSum: int
    var ramNum: byte
    var ramInit: bool

    ghost predicate Valid()
      reads this, cells
    {
      cells.Length == CELLS && ramAddr < CELLS
    }

    ghost function Contents(): Ram
      requires Valid()
      reads this, cells
    {
      cells[..]
    }

    constructor (stuck: map<nat, byte>)
      ensures Valid() && fresh(cells) && this.stuck == stuck && !ramInit
    {
      cells := new byte[CELLS](_ => 0);
      this.stuck := stuck;
      ramAddr, cfg, baseAddr, ramLen, checkSum, ramNum, ramInit := 0, Cfg(0, 0, 0), 0, 0, 0, 0, false;
    }

    method WriteRamData(data: seq<byte>)
      requires Valid()
      modifies this`ramAddr, cells
      ensures Valid()
      ensures Contents() == Put(old(Contents()), stuck, old(ramAddr), data)
      ensures ramAddr == At(old(ramAddr), |data|)
    {
      var k := 0;
      assert data[0..] == data;
      while k < |data|
        invariant 0 <= k <= |data| && Valid()
        invariant ramAddr == At(old(ramAddr), k)
        invariant Put(Contents(), stuck, ramAddr, data[k..]) == Put(old(Contents()), stuck, old(ramAddr), data)
      {
        ghost var before := Contents();
        PutStep(before, stuck, ramAddr, data, k);
        AtAdd(old(ramAddr), k, 1);
        cells[ramAddr] := Cell(stuck, ramAddr, data[k]);
        assert Contents() == before[ramAddr := Cell(stuck, ramAddr, data[k])];
        ramAddr := At(ramAddr, 1);
        k := k + 1;
      }
    }

    method ReadRamData(n: nat) returns (data: seq<byte>)
      requires Valid()
      modifies this`ramAddr
      ensures Valid() && data == Get(Contents(), old(ramAddr), n)
      ensures ramAddr == At(old(ramAddr), n)
    {
      data := [];
      for k := 0 to n
        invariant Valid() && ramAddr == At(old(ramAddr), k)
        invariant data == Get(Contents(), old(ramAddr), k)
      {
        GetStep(Contents(), old(ramAddr), k);
        AtAdd(old(ramAddr), k, 1);
        data := data + [cells[ramAddr]];
        ramAddr := At(ramAddr, 1);
      }
    }

    method SetRamAddr()
      requires baseAddr < CELLS
      modifies this`ramAddr
      ensures ramAddr == baseAddr
    {
      var high, low := baseAddr / 256, baseAddr % 256;
      ramAddr := high * 256 + low;
    }

    method CheckRamData(contData: seq<byte>, ramData: seq<byte>) returns (ret: int)
      requires |contData| == |ramData|
      ensures ret == 0 || ret == -ERANGE
      ensures ret == 0 <==> contData == ramData
    {
      for i := 0 to |contData|
        invariant contData[..i] == ramData[..i]
      {
        if ramData[i] != contData[i] {
          return -ERANGE;
        }
      }
      assert contData == contData[..|contData|] && ramData == ramData[..|ramData|];
      return 0;
    }

    /** The 2048-byte chunks are one burst. */
    method WriteImage(image: seq<byte>)
      requires Valid() && |image| >= RAM_SHIFT && baseAddr < CELLS
      modifies this`ramAddr, cells
      ensures Valid()
      ensures Contents() == Put(old(Contents()), stuck, baseAddr, Payload(image))
    {
      SetRamAddr();
      ghost var data := Payload(image);
      ghost var ram := old(Contents());
      var i := RAM_SHIFT;
      while i < |image|
        invariant RAM_SHIFT <= i <= |image| && Valid()
        invariant ramAddr == At(baseAddr, i - RAM_SHIFT)
        invariant Contents() == Put(ram, stuck, baseAddr, data[..i - RAM_SHIFT])
      {
        var len := if |image| - i < WR_BUFFER then |image| - i else WR_BUFFER;
        WriteStep(ram, stuck, baseAddr, data, i - RAM_SHIFT, len);
        PayloadSlice(image, i, len);
        WriteRamData(image[i..i + len]);
        i := i + len;
      }
      assert data[..i - RAM_SHIFT] == data;
    }

    /** The 1024-byte comparisons are one comparison, whatever the RAM holds. */
    method CheckImage(image: seq<byte>) returns (ret: int)
      requires Valid() && |image| >= RAM_SHIFT && baseAddr < CELLS
      modifies this`ramAddr
      ensures Valid()
      ensures ret == 0 || ret == -ERANGE
      ensures ret == 0 <==> ReadsBack(Contents(), baseAddr, Payload(image))
    {
      SetRamAddr();
      ghost var data := Payload(image);
      ret := 0;
      var i := RAM_SHIFT;
      while i < |image|
        invariant RAM_SHIFT <= i <= |image| && Valid() && ret == 0
        invariant ramAddr == At(baseAddr, i - RAM_SHIFT)
        invariant Get(Contents(), baseAddr, i - RAM_SHIFT) == data[..i - RAM_SHIFT]
      {
        var len := if |image| - i < RD_BUFFER then |image| - i else RD_BUFFER;
        var ramData := ReadRamData(len);
        ret := CheckRamData(image[i..i + len], ramData);
        PayloadSlice(image, i, len);
        if ret < 0 {
          ChunkDiffers(Contents(), baseAddr, data, i - RAM_SHIFT, len);
          return;
        }
        ReadStep(Contents(), baseAddr, data, i - RAM_SHIFT, len);
        i := i + len;
      }
      assert data[..i - RAM_SHIFT] == data;
    }

    /** container_update. */
    method ContainerUpdate(image: seq<byte>) returns (ret: int)
      requires Valid() && |image| >= RAM_SHIFT
      modifies this`ramAddr, this`cfg, this`baseAddr, cells
      ensures Valid() && baseAddr == BaseAddr(image) && cfg == Encode(baseAddr)
      ensures Contents() == Put(old(Contents()), stuck, baseAddr, Payload(image))
      ensures ret == 0 || ret == -ERANGE
      ensures ret == 0 <==> ReadsBack(Contents(), baseAddr, Payload(image))
    {
      var base: uint16 := BigEndian(image[2], image[3]);
      baseAddr := base;
      cfg := Encode(base);
      WriteImage(image);
      ret := CheckImage(image);
    }

    method SumImage(image: seq<byte>) returns (sum: int)
      requires |image| >= 2
      ensures sum == ByteSum(image[2..]) % 0x1_0000
    {
      sum := 0;
      for i := 2 to |image|
        invariant sum == ByteSum(image[2..i]) % 0x1_0000
      {
        SumStep(image, i);
        sum := (sum + image[i]) % 0x1_0000;
      }
      assert image[2..|image|] == image[2..];
    }

    /** get_ram_data: 1024-byte reads make one read of ram.len bytes. */
    method GetRamData() returns (buf: seq<byte>)
      requires Valid() && baseAddr < CELLS
      modifies this`ramAddr
      ensures Valid() && buf == Get(Contents(), baseAddr, ramLen)
    {
      SetRamAddr();
      buf := [];
      var i := 0;
      while i < ramLen
        invariant 0 <= i <= ramLen && Valid()
        invariant ramAddr == At(baseAddr, i)
        invariant buf == Get(Contents(), baseAddr, i)
      {
        var size := if ramLen - i < RD_BUFFER then ramLen - i else RD_BUFFER;
        var part := ReadRamData(size);
        GetConcat(Contents(), baseAddr, i, size);
        AtAdd(baseAddr, i, size);
        buf := buf + part;
        i := i + size;
      }
    }

    /** The image is in use: the RAM reads back as its payload. */
    ghost predicate InUse(image: seq<byte>)
      requires Valid()
      reads this, cells
    {
      && ramInit && |image| >= RAM_SHIFT && baseAddr == BaseAddr(image)
      && ramLen == |Payload(image)| && ReadsBack(Contents(), baseAddr, Payload(image))
    }

    /** ram_update_show: dump what is loaded. It is the payload, byte for byte. */
    method RamUpdateShow(ghost image: seq<byte>) returns (buf: seq<byte>)
      requires Valid() && InUse(image)
      modifies this`ramAddr
      ensures Valid() && InUse(image) && buf == Payload(image)
    {
      buf := GetRamData();
    }

    /** get_ram_num, from the three bytes at the base address. */
    method GetRamNum() returns (ret: int)
      requires Valid() && baseAddr < CELLS
      modifies this`ramAddr, this`ramNum
      ensures Valid()
      ensures ret == if ramInit then 0 else -1
      ensures !ramInit ==> ramNum == old(ramNum)
      ensures ramInit ==> var head := Get(Contents(), baseAddr, 3);
                          ramNum == WaveCount(BigEndian(head[1], head[2]), baseAddr)
    {
      if !ramInit {
        return -1;
      }
      SetRamAddr();
      var reg := ReadRamData(3);
      ramNum := WaveCount(BigEndian(reg[1], reg[2]), baseAddr);
      return 0;
    }

    /** The part of ram_load that follows a successful container_update. */
    method TakeIntoUse(image: seq<byte>)
      requires Valid() && baseAddr < CELLS && RAM_SHIFT <= |image| < 0x8000_0000
      requires ReadsBack(Contents(), baseAddr, Payload(image))
      modifies this`ramInit, this`ramLen, this`ramNum, this`ramAddr
      ensures Valid() && ramInit && ramLen == |Payload(image)|
      ensures |image| >= 7 ==> ramNum == WaveCount(BigEndian(image[5], image[6]), baseAddr)
    {
      ramInit := true;
      ramLen := |image| - RAM_SHIFT;
      var _ := GetRamNum();
      if |image| >= 7 {
        HeadOfPayload(Contents(), baseAddr, image);
      }
    }

    /** ram_load. A bad checksum changes nothing; otherwise RAM and thresholds are
        written, and the image is taken into use exactly when it reads back. */
    method RamLoad(image: seq<byte>)
      requires Valid() && !ramInit && RAM_SHIFT <= |image| < 0x8000_0000
      modifies this, cells
      ensures Valid() && cells == old(cells)
      ensures !Accepts(image) ==> Contents() == old(Contents()) && cfg == old(cfg) && baseAddr == old(baseAddr)
      ensures Accepts(image) ==>
                && baseAddr == BaseAddr(image) && cfg == Encode(baseAddr)
                && baseAddr / 256 == image[2] && baseAddr % 256 == image[3]
                && checkSum == Header(image)
                && Contents() == Put(old(Contents()), stuck, baseAddr, Payload(image))
      ensures ramInit <==> Accepts(image) && WrapsOntoItself(Payload(image))
                           && CellsHold(stuck, BaseAddr(image), Payload(image))
      ensures ramInit ==> InUse(image)
      ensures ramInit && |image| >= 7 ==> ramNum == WaveCount(BigEndian(image[5], image[6]), baseAddr)
    {
      var sum := SumImage(image);
      if sum != BigEndian(image[0], image[1]) {
        return;
      }
      checkSum := sum;
      var ret := ContainerUpdate(image);
      ReadBackIff(old(Contents()), stuck, baseAddr, Payload(image));
      if ret == 0 {
        TakeIntoUse(image);
      }
    }
  }
}
