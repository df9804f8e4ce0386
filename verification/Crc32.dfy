/**
  * CRC32 (IEEE, reflected) three ways: one bit at a time by the polynomial, by a
  * 16-entry table a nibble at a time, and by a 256-entry table a byte at a time.
  */
module Crc32 {
  /** One bit of the reflected division by the polynomial 0xedb88320. */
  function BitStep(crc: bv32): bv32 {
    if crc & 1 == 1 then (crc >> 1) ^ 0xedb88320 else crc >> 1
  }

  /** A step taken once for each tick. */
  function Steps<W>(step: W -> W, x: W, ticks: seq<bool>): W
    decreases |ticks|
  {
    if ticks == [] then x else Steps(step, step(x), ticks[1..])
  }

  const NIBBLE := [true, true, true, true]
  const BYTE := NIBBLE + NIBBLE

  /** As many bits divided out, from the low end. */
  function Divide(x: bv32, bits: seq<bool>): bv32 {
    Steps(BitStep, x, bits)
  }

  /** The reference: a byte enters at the low end and eight bits are divided out. */
  function ByteStep(crc: bv32, b: bv8): bv32 {
    Divide(crc ^ (b as bv32), BYTE)
  }

  function Fold(crc: bv32, data: seq<bv8>): bv32 {
    if data == [] then crc else ByteStep(Fold(crc, data[..|data| - 1]), data[|data| - 1])
  }

  /** CRC32 of a byte sequence. */
  function Crc(data: seq<bv8>): bv32 {
    Fold(0xffff_ffff, data) ^ 0xffff_ffff
  }

  /* -------------------------------------------------------------- the tables */

  function NibbleTable(i: bv32): bv32 {
    if i == 0x0 then 0x00000000
    else if i == 0x1 then 0x1db71064
    else if i == 0x2 then 0x3b6e20c8
    else if i == 0x3 then 0x26d930ac
    else if i == 0x4 then 0x76dc4190
    else if i == 0x5 then 0x6b6b51f4
    else if i == 0x6 then 0x4db26158
    else if i == 0x7 then 0x5005713c
    else if i == 0x8 then 0xedb88320
    else if i == 0x9 then 0xf00f9344
    else if i == 0xa then 0xd6d6a3e8
    else if i == 0xb then 0xcb61b38c
    else if i == 0xc then 0x9b64c2b0
    else if i == 0xd then 0x86d3d2d4
    else if i == 0xe then 0xa00ae278
    else 0xbdbdf21c
  }

  function Row0(i: bv32): bv32 {
    if i == 0x00 then 0x00000000
    else if i == 0x01 then 0x77073096
    else if i == 0x02 then 0xee0e612c
    else if i == 0x03 then 0x990951ba
    else if i == 0x04 then 0x076dc419
    else if i == 0x05 then 0x706af48f
    else if i == 0x06 then 0xe963a535
    else if i == 0x07 then 0x9e6495a3
    else if i == 0x08 then 0x0edb8832
    else if i == 0x09 then 0x79dcb8a4
    else if i == 0x0a then 0xe0d5e91e
    else if i == 0x0b then 0x97d2d988
    else if i == 0x0c then 0x09b64c2b
    else if i == 0x0d then 0x7eb17cbd
    else if i == 0x0e then 0xe7b82d07
    else 0x90bf1d91
  }

  function Row1(i: bv32): bv32 {
    if i == 0x10 then 0x1db71064
    else if i == 0x11 then 0x6ab020f2
    else if i == 0x12 then 0xf3b97148
    else if i == 0x13 then 0x84be41de
    else if i == 0x14 then 0x1adad47d
    else if i == 0x15 then 0x6ddde4eb
    else if i == 0x16 then 0xf4d4b551
    else if i == 0x17 then 0x83d385c7
    else if i == 0x18 then 0x136c9856
    else if i == 0x19 then 0x646ba8c0
    else if i == 0x1a then 0xfd62f97a
    else if i == 0x1b then 0x8a65c9ec
    else if i == 0x1c then 0x14015c4f
    else if i == 0x1d then 0x63066cd9
    else if i == 0x1e then 0xfa0f3d63
    else 0x8d080df5
  }

  function Row2(i: bv32): bv32 {
    if i == 0x20 then 0x3b6e20c8
    else if i == 0x21 then 0x4c69105e
    else if i == 0x22 then 0xd56041e4
    else if i == 0x23 then 0xa2677172
    else if i == 0x24 then 0x3c03e4d1
    else if i == 0x25 then 0x4b04d447
    else if i == 0x26 then 0xd20d85fd
    else if i == 0x27 then 0xa50ab56b
    else if i == 0x28 then 0x35b5a8fa
    else if i == 0x29 then 0x42b2986c
    else if i == 0x2a then 0xdbbbc9d6
    else if i == 0x2b then 0xacbcf940
    else if i == 0x2c then 0x32d86ce3
    else if i == 0x2d then 0x45df5c75
    else if i == 0x2e then 0xdcd60dcf
    else 0xabd13d59
  }

  function Row3(i: bv32): bv32 {
    if i == 0x30 then 0x26d930ac
    else if i == 0x31 then 0x51de003a
    else if i == 0x32 then 0xc8d75180
    else if i == 0x33 then 0xbfd06116
    else if i == 0x34 then 0x21b4f4b5
    else if i == 0x35 then 0x56b3c423
    else if i == 0x36 then 0xcfba9599
    else if i == 0x37 then 0xb8bda50f
    else if i == 0x38 then 0x2802b89e
    else if i == 0x39 then 0x5f058808
    else if i == 0x3a then 0xc60cd9b2
    else if i == 0x3b then 0xb10be924
    else if i == 0x3c then 0x2f6f7c87
    else if i == 0x3d then 0x58684c11
    else if i == 0x3e then 0xc1611dab
    else 0xb6662d3d
  }

  function Row4(i: bv32): bv32 {
    if i == 0x40 then 0x76dc4190
    else if i == 0x41 then 0x01db7106
    else if i == 0x42 then 0x98d220bc
    else if i == 0x43 then 0xefd5102a
    else if i == 0x44 then 0x71b18589
    else if i == 0x45 then 0x06b6b51f
    else if i == 0x46 then 0x9fbfe4a5
    else if i == 0x47 then 0xe8b8d433
    else if i == 0x48 then 0x7807c9a2
    else if i == 0x49 then 0x0f00f934
    else if i == 0x4a then 0x9609a88e
    else if i == 0x4b then 0xe10e9818
    else if i == 0x4c then 0x7f6a0dbb
    else if i == 0x4d then 0x086d3d2d
    else if i == 0x4e then 0x91646c97
    else 0xe6635c01
  }

  function Row5(i: bv32): bv32 {
    if i == 0x50 then 0x6b6b51f4
    else if i == 0x51 then 0x1c6c6162
    else if i == 0x52 then 0x856530d8
    else if i == 0x53 then 0xf262004e
    else if i == 0x54 then 0x6c0695ed
    else if i == 0x55 then 0x1b01a57b
    else if i == 0x56 then 0x8208f4c1
    else if i == 0x57 then 0xf50fc457
    else if i == 0x58 then 0x65b0d9c6
    else if i == 0x59 then 0x12b7e950
    else if i == 0x5a then 0x8bbeb8ea
    else if i == 0x5b then 0xfcb9887c
    else if i == 0x5c then 0x62dd1ddf
    else if i == 0x5d then 0x15da2d49
    else if i == 0x5e then 0x8cd37cf3
    else 0xfbd44c65
  }

  function Row6(i: bv32): bv32 {
    if i == 0x60 then 0x4db26158
    else if i == 0x61 then 0x3ab551ce
    else if i == 0x62 then 0xa3bc0074
    else if i == 0x63 then 0xd4bb30e2
    else if i == 0x64 then 0x4adfa541
    else if i == 0x65 then 0x3dd895d7
    else if i == 0x66 then 0xa4d1c46d
    else if i == 0x67 then 0xd3d6f4fb
    else if i == 0x68 then 0x4369e96a
    else if i == 0x69 then 0x346ed9fc
    else if i == 0x6a then 0xad678846
    else if i == 0x6b then 0xda60b8d0
    else if i == 0x6c then 0x44042d73
    else if i == 0x6d then 0x33031de5
    else if i == 0x6e then 0xaa0a4c5f
    else 0xdd0d7cc9
  }

  function Row7(i: bv32): bv32 {
    if i == 0x70 then 0x5005713c
    else if i == 0x71 then 0x270241aa
    else if i == 0x72 then 0xbe0b1010
    else if i == 0x73 then 0xc90c2086
    else if i == 0x74 then 0x5768b525
    else if i == 0x75 then 0x206f85b3
    else if i == 0x76 then 0xb966d409
    else if i == 0x77 then 0xce61e49f
    else if i == 0x78 then 0x5edef90e
    else if i == 0x79 then 0x29d9c998
    else if i == 0x7a then 0xb0d09822
    else if i == 0x7b then 0xc7d7a8b4
    else if i == 0x7c then 0x59b33d17
    else if i == 0x7d then 0x2eb40d81
    else if i == 0x7e then 0xb7bd5c3b
    else 0xc0ba6cad
  }

  function Row8(i: bv32): bv32 {
    if i == 0x80 then 0xedb88320
    else if i == 0x81 then 0x9abfb3b6
    else if i == 0x82 then 0x03b6e20c
    else if i == 0x83 then 0x74b1d29a
    else if i == 0x84 then 0xead54739
    else if i == 0x85 then 0x9dd277af
    else if i == 0x86 then 0x04db2615
    else if i == 0x87 then 0x73dc1683
    else if i == 0x88 then 0xe3630b12
    else if i == 0x89 then 0x94643b84
    else if i == 0x8a then 0x0d6d6a3e
    else if i == 0x8b then 0x7a6a5aa8
    else if i == 0x8c then 0xe40ecf0b
    else if i == 0x8d then 0x9309ff9d
    else if i == 0x8e then 0x0a00ae27
    else 0x7d079eb1
  }

  function Row9(i: bv32): bv32 {
    if i == 0x90 then 0xf00f9344
    else if i == 0x91 then 0x8708a3d2
    else if i == 0x92 then 0x1e01f268
    else if i == 0x93 then 0x6906c2fe
    else if i == 0x94 then 0xf762575d
    else if i == 0x95 then 0x806567cb
    else if i == 0x96 then 0x196c3671
    else if i == 0x97 then 0x6e6b06e7
    else if i == 0x98 then 0xfed41b76
    else if i == 0x99 then 0x89d32be0
    else if i == 0x9a then 0x10da7a5a
    else if i == 0x9b then 0x67dd4acc
    else if i == 0x9c then 0xf9b9df6f
    else if i == 0x9d then 0x8ebeeff9
    else if i == 0x9e then 0x17b7be43
    else 0x60b08ed5
  }

  function RowA(i: bv32): bv32 {
    if i == 0xa0 then 0xd6d6a3e8
    else if i == 0xa1 then 0xa1d1937e
    else if i == 0xa2 then 0x38d8c2c4
    else if i == 0xa3 then 0x4fdff252
    else if i == 0xa4 then 0xd1bb67f1
    else if i == 0xa5 then 0xa6bc5767
    else if i == 0xa6 then 0x3fb506dd
    else if i == 0xa7 then 0x48b2364b
    else if i == 0xa8 then 0xd80d2bda
    else if i == 0xa9 then 0xaf0a1b4c
    else if i == 0xaa then 0x36034af6
    else if i == 0xab then 0x41047a60
    else if i == 0xac then 0xdf60efc3
    else if i == 0xad then 0xa867df55
    else if i == 0xae then 0x316e8eef
    else 0x4669be79
  }

  function RowB(i: bv32): bv32 {
    if i == 0xb0 then 0xcb61b38c
    else if i == 0xb1 then 0xbc66831a
    else if i == 0xb2 then 0x256fd2a0
    else if i == 0xb3 then 0x5268e236
    else if i == 0xb4 then 0xcc0c7795
    else if i == 0xb5 then 0xbb0b4703
    else if i == 0xb6 then 0x220216b9
    else if i == 0xb7 then 0x5505262f
    else if i == 0xb8 then 0xc5ba3bbe
    else if i == 0xb9 then 0xb2bd0b28
    else if i == 0xba then 0x2bb45a92
    else if i == 0xbb then 0x5cb36a04
    else if i == 0xbc then 0xc2d7ffa7
    else if i == 0xbd then 0xb5d0cf31
    else if i == 0xbe then 0x2cd99e8b
    else 0x5bdeae1d
  }

  function RowC(i: bv32): bv32 {
    if i == 0xc0 then 0x9b64c2b0
    else if i == 0xc1 then 0xec63f226
    else if i == 0xc2 then 0x756aa39c
    else if i == 0xc3 then 0x026d930a
    else if i == 0xc4 then 0x9c0906a9
    else if i == 0xc5 then 0xeb0e363f
    else if i == 0xc6 then 0x72076785
    else if i == 0xc7 then 0x05005713
    else if i == 0xc8 then 0x95bf4a82
    else if i == 0xc9 then 0xe2b87a14
    else if i == 0xca then 0x7bb12bae
    else if i == 0xcb then 0x0cb61b38
    else if i == 0xcc then 0x92d28e9b
    else if i == 0xcd then 0xe5d5be0d
    else if i == 0xce then 0x7cdcefb7
    else 0x0bdbdf21
  }

  function RowD(i: bv32): bv32 {
    if i == 0xd0 then 0x86d3d2d4
    else if i == 0xd1 then 0xf1d4e242
    else if i == 0xd2 then 0x68ddb3f8
    else if i == 0xd3 then 0x1fda836e
    else if i == 0xd4 then 0x81be16cd
    else if i == 0xd5 then 0xf6b9265b
    else if i == 0xd6 then 0x6fb077e1
    else if i == 0xd7 then 0x18b74777
    else if i == 0xd8 then 0x88085ae6
    else if i == 0xd9 then 0xff0f6a70
    else if i == 0xda then 0x66063bca
    else if i == 0xdb then 0x11010b5c
    else if i == 0xdc then 0x8f659eff
    else if i == 0xdd then 0xf862ae69
    else if i == 0xde then 0x616bffd3
    else 0x166ccf45
  }

  function RowE(i: bv32): bv32 {
    if i == 0xe0 then 0xa00ae278
    else if i == 0xe1 then 0xd70dd2ee
    else if i == 0xe2 then 0x4e048354
    else if i == 0xe3 then 0x3903b3c2
    else if i == 0xe4 then 0xa7672661
    else if i == 0xe5 then 0xd06016f7
    else if i == 0xe6 then 0x4969474d
    else if i == 0xe7 then 0x3e6e77db
    else if i == 0xe8 then 0xaed16a4a
    else if i == 0xe9 then 0xd9d65adc
    else if i == 0xea then 0x40df0b66
    else if i == 0xeb then 0x37d83bf0
    else if i == 0xec then 0xa9bcae53
    else if i == 0xed then 0xdebb9ec5
    else if i == 0xee then 0x47b2cf7f
    else 0x30b5ffe9
  }

  function RowF(i: bv32): bv32 {
    if i == 0xf0 then 0xbdbdf21c
    else if i == 0xf1 then 0xcabac28a
    else if i == 0xf2 then 0x53b39330
    else if i == 0xf3 then 0x24b4a3a6
    else if i == 0xf4 then 0xbad03605
    else if i == 0xf5 then 0xcdd70693
    else if i == 0xf6 then 0x54de5729
    else if i == 0xf7 then 0x23d967bf
    else if i == 0xf8 then 0xb3667a2e
    else if i == 0xf9 then 0xc4614ab8
    else if i == 0xfa then 0x5d681b02
    else if i == 0xfb then 0x2a6f2b94
    else if i == 0xfc then 0xb40bbe37
    else if i == 0xfd then 0xc30c8ea1
    else if i == 0xfe then 0x5a05df1b
    else 0x2d02ef8d
  }

  function ByteTable(i: bv32): bv32 {
    if i <= 0x0f then Row0(i)
    else if i <= 0x1f then Row1(i)
    else if i <= 0x2f then Row2(i)
    else if i <= 0x3f then Row3(i)
    else if i <= 0x4f then Row4(i)
    else if i <= 0x5f then Row5(i)
    else if i <= 0x6f then Row6(i)
    else if i <= 0x7f then Row7(i)
    else if i <= 0x8f then Row8(i)
    else if i <= 0x9f then Row9(i)
    else if i <= 0xaf then RowA(i)
    else if i <= 0xbf then RowB(i)
    else if i <= 0xcf then RowC(i)
    else if i <= 0xdf then RowD(i)
    else if i <= 0xef then RowE(i)
    else RowF(i)
  }

  /** A nibble of the division, by a table. */
  function ByNibble(table: bv32 -> bv32, crc: bv32): bv32 {
    (crc >> 4) ^ table(crc & 0xf)
  }

  function NibbleStep(crc: bv32): bv32 {
    ByNibble(NibbleTable, crc)
  }

  /** A byte of it, by nibbles. */
  function NibblesStep(crc: bv32, b: bv8): bv32 {
    NibbleStep(NibbleStep(crc ^ (b as bv32)))
  }

  /** A byte of it, by a table. */
  function ByByte(table: bv32 -> bv32, crc: bv32, b: bv32): bv32 {
    table((b ^ crc) & 0xff) ^ (crc >> 8)
  }

  function TableStep(crc: bv32, b: bv8): bv32 {
    ByByte(ByteTable, crc, b as bv32)
  }

  /* --------------------------------------------- each entry divides its index */

  /** A step taken so many times. */
  function Times<W>(step: W -> W, x: W, n: nat): W
    decreases n
  {
    if n == 0 then x else Times(step, step(x), n - 1)
  }

  lemma NibbleDivides(i: bv32)
    requires i <= 0xf
    ensures NibbleTable(i) == Times(BitStep, i, 4)
  {
    NibbleDividesLiterals();
    assert i == 0x0 || i == 0x1 || i == 0x2 || i == 0x3 || i == 0x4 || i == 0x5 || i == 0x6 || i == 0x7
        || i == 0x8 || i == 0x9 || i == 0xa || i == 0xb || i == 0xc || i == 0xd || i == 0xe || i == 0xf;
  }

  lemma NibbleDividesLiterals()
    ensures Times(BitStep, 0x0, 4) == 0x00000000
    ensures Times(BitStep, 0x1, 4) == 0x1db71064
    ensures Times(BitStep, 0x2, 4) == 0x3b6e20c8
    ensures Times(BitStep, 0x3, 4) == 0x26d930ac
    ensures Times(BitStep, 0x4, 4) == 0x76dc4190
    ensures Times(BitStep, 0x5, 4) == 0x6b6b51f4
    ensures Times(BitStep, 0x6, 4) == 0x4db26158
    ensures Times(BitStep, 0x7, 4) == 0x5005713c
    ensures Times(BitStep, 0x8, 4) == 0xedb88320
    ensures Times(BitStep, 0x9, 4) == 0xf00f9344
    ensures Times(BitStep, 0xa, 4) == 0xd6d6a3e8
    ensures Times(BitStep, 0xb, 4) == 0xcb61b38c
    ensures Times(BitStep, 0xc, 4) == 0x9b64c2b0
    ensures Times(BitStep, 0xd, 4) == 0x86d3d2d4
    ensures Times(BitStep, 0xe, 4) == 0xa00ae278
    ensures Times(BitStep, 0xf, 4) == 0xbdbdf21c
  {
  }

  lemma Row0Divides(i: bv32)
    requires i <= 0x0f
    ensures Row0(i) == Times(BitStep, i, 8)
  {
    Row0DividesLiterals();
    assert i == 0x00 || i == 0x01 || i == 0x02 || i == 0x03 || i == 0x04 || i == 0x05 || i == 0x06 || i == 0x07
        || i == 0x08 || i == 0x09 || i == 0x0a || i == 0x0b || i == 0x0c || i == 0x0d || i == 0x0e || i == 0x0f;
  }

  lemma Row0DividesLiterals()
    ensures Times(BitStep, 0x00, 8) == 0x00000000
    ensures Times(BitStep, 0x01, 8) == 0x77073096
    ensures Times(BitStep, 0x02, 8) == 0xee0e612c
    ensures Times(BitStep, 0x03, 8) == 0x990951ba
    ensures Times(BitStep, 0x04, 8) == 0x076dc419
    ensures Times(BitStep, 0x05, 8) == 0x706af48f
    ensures Times(BitStep, 0x06, 8) == 0xe963a535
    ensures Times(BitStep, 0x07, 8) == 0x9e6495a3
    ensures Times(BitStep, 0x08, 8) == 0x0edb8832
    ensures Times(BitStep, 0x09, 8) == 0x79dcb8a4
    ensures Times(BitStep, 0x0a, 8) == 0xe0d5e91e
    ensures Times(BitStep, 0x0b, 8) == 0x97d2d988
    ensures Times(BitStep, 0x0c, 8) == 0x09b64c2b
    ensures Times(BitStep, 0x0d, 8) == 0x7eb17cbd
    ensures Times(BitStep, 0x0e, 8) == 0xe7b82d07
    ensures Times(BitStep, 0x0f, 8) == 0x90bf1d91
  {
  }

  lemma Row1Divides(i: bv32)
    requires 0x10 <= i <= 0x1f
    ensures Row1(i) == Times(BitStep, i, 8)
  {
    Row1DividesLiterals();
  }

  lemma Row1DividesLiterals()
    ensures Times(BitStep, 0x10, 8) == 0x1db71064
    ensures Times(BitStep, 0x11, 8) == 0x6ab020f2
    ensures Times(BitStep, 0x12, 8) == 0xf3b97148
    ensures Times(BitStep, 0x13, 8) == 0x84be41de
    ensures Times(BitStep, 0x14, 8) == 0x1adad47d
    ensures Times(BitStep, 0x15, 8) == 0x6ddde4eb
    ensures Times(BitStep, 0x16, 8) == 0xf4d4b551
    ensures Times(BitStep, 0x17, 8) == 0x83d385c7
    ensures Times(BitStep, 0x18, 8) == 0x136c9856
    ensures Times(BitStep, 0x19, 8) == 0x646ba8c0
    ensures Times(BitStep, 0x1a, 8) == 0xfd62f97a
    ensures Times(BitStep, 0x1b, 8) == 0x8a65c9ec
    ensures Times(BitStep, 0x1c, 8) == 0x14015c4f
    ensures Times(BitStep, 0x1d, 8) == 0x63066cd9
    ensures Times(BitStep, 0x1e, 8) == 0xfa0f3d63
    ensures Times(BitStep, 0x1f, 8) == 0x8d080df5
  {
  }

  lemma Row2Divides(i: bv32)
    requires 0x20 <= i <= 0x2f
    ensures Row2(i) == Times(BitStep, i, 8)
  {
    Row2DividesLiterals();
  }

  lemma Row2DividesLiterals()
    ensures Times(BitStep, 0x20, 8) == 0x3b6e20c8
    ensures Times(BitStep, 0x21, 8) == 0x4c69105e
    ensures Times(BitStep, 0x22, 8) == 0xd56041e4
    ensures Times(BitStep, 0x23, 8) == 0xa2677172
    ensures Times(BitStep, 0x24, 8) == 0x3c03e4d1
    ensures Times(BitStep, 0x25, 8) == 0x4b04d447
    ensures Times(BitStep, 0x26, 8) == 0xd20d85fd
    ensures Times(BitStep, 0x27, 8) == 0xa50ab56b
    ensures Times(BitStep, 0x28, 8) == 0x35b5a8fa
    ensures Times(BitStep, 0x29, 8) == 0x42b2986c
    ensures Times(BitStep, 0x2a, 8) == 0xdbbbc9d6
    ensures Times(BitStep, 0x2b, 8) == 0xacbcf940
    ensures Times(BitStep, 0x2c, 8) == 0x32d86ce3
    ensures Times(BitStep, 0x2d, 8) == 0x45df5c75
    ensures Times(BitStep, 0x2e, 8) == 0xdcd60dcf
    ensures Times(BitStep, 0x2f, 8) == 0xabd13d59
  {
  }

  lemma Row3Divides(i: bv32)
    requires 0x30 <= i <= 0x3f
    ensures Row3(i) == Times(BitStep, i, 8)
  {
    Row3DividesLiterals();
  }

  lemma Row3DividesLiterals()
    ensures Times(BitStep, 0x30, 8) == 0x26d930ac
    ensures Times(BitStep, 0x31, 8) == 0x51de003a
    ensures Times(BitStep, 0x32, 8) == 0xc8d75180
    ensures Times(BitStep, 0x33, 8) == 0xbfd06116
    ensures Times(BitStep, 0x34, 8) == 0x21b4f4b5
    ensures Times(BitStep, 0x35, 8) == 0x56b3c423
    ensures Times(BitStep, 0x36, 8) == 0xcfba9599
    ensures Times(BitStep, 0x37, 8) == 0xb8bda50f
    ensures Times(BitStep, 0x38, 8) == 0x2802b89e
    ensures Times(BitStep, 0x39, 8) == 0x5f058808
    ensures Times(BitStep, 0x3a, 8) == 0xc60cd9b2
    ensures Times(BitStep, 0x3b, 8) == 0xb10be924
    ensures Times(BitStep, 0x3c, 8) == 0x2f6f7c87
    ensures Times(BitStep, 0x3d, 8) == 0x58684c11
    ensures Times(BitStep, 0x3e, 8) == 0xc1611dab
    ensures Times(BitStep, 0x3f, 8) == 0xb6662d3d
  {
  }

  lemma Row4Divides(i: bv32)
    requires 0x40 <= i <= 0x4f
    ensures Row4(i) == Times(BitStep, i, 8)
  {
    Row4DividesLiterals();
  }

  lemma Row4DividesLiterals()
    ensures Times(BitStep, 0x40, 8) == 0x76dc4190
    ensures Times(BitStep, 0x41, 8) == 0x01db7106
    ensures Times(BitStep, 0x42, 8) == 0x98d220bc
    ensures Times(BitStep, 0x43, 8) == 0xefd5102a
    ensures Times(BitStep, 0x44, 8) == 0x71b18589
    ensures Times(BitStep, 0x45, 8) == 0x06b6b51f
    ensures Times(BitStep, 0x46, 8) == 0x9fbfe4a5
    ensures Times(BitStep, 0x47, 8) == 0xe8b8d433
    ensures Times(BitStep, 0x48, 8) == 0x7807c9a2
    ensures Times(BitStep, 0x49, 8) == 0x0f00f934
    ensures Times(BitStep, 0x4a, 8) == 0x9609a88e
    ensures Times(BitStep, 0x4b, 8) == 0xe10e9818
    ensures Times(BitStep, 0x4c, 8) == 0x7f6a0dbb
    ensures Times(BitStep, 0x4d, 8) == 0x086d3d2d
    ensures Times(BitStep, 0x4e, 8) == 0x91646c97
    ensures Times(BitStep, 0x4f, 8) == 0xe6635c01
  {
  }

  lemma Row5Divides(i: bv32)
    requires 0x50 <= i <= 0x5f
    ensures Row5(i) == Times(BitStep, i, 8)
  {
    Row5DividesLiterals();
  }

  lemma Row5DividesLiterals()
    ensures Times(BitStep, 0x50, 8) == 0x6b6b51f4
    ensures Times(BitStep, 0x51, 8) == 0x1c6c6162
    ensures Times(BitStep, 0x52, 8) == 0x856530d8
    ensures Times(BitStep, 0x53, 8) == 0xf262004e
    ensures Times(BitStep, 0x54, 8) == 0x6c0695ed
    ensures Times(BitStep, 0x55, 8) == 0x1b01a57b
    ensures Times(BitStep, 0x56, 8) == 0x8208f4c1
    ensures Times(BitStep, 0x57, 8) == 0xf50fc457
    ensures Times(BitStep, 0x58, 8) == 0x65b0d9c6
    ensures Times(BitStep, 0x59, 8) == 0x12b7e950
    ensures Times(BitStep, 0x5a, 8) == 0x8bbeb8ea
    ensures Times(BitStep, 0x5b, 8) == 0xfcb9887c
    ensures Times(BitStep, 0x5c, 8) == 0x62dd1ddf
    ensures Times(BitStep, 0x5d, 8) == 0x15da2d49
    ensures Times(BitStep, 0x5e, 8) == 0x8cd37cf3
    ensures Times(BitStep, 0x5f, 8) == 0xfbd44c65
  {
  }

  lemma Row6Divides(i: bv32)
    requires 0x60 <= i <= 0x6f
    ensures Row6(i) == Times(BitStep, i, 8)
  {
    Row6DividesLiterals();
  }

  lemma Row6DividesLiterals()
    ensures Times(BitStep, 0x60, 8) == 0x4db26158
    ensures Times(BitStep, 0x61, 8) == 0x3ab551ce
    ensures Times(BitStep, 0x62, 8) == 0xa3bc0074
    ensures Times(BitStep, 0x63, 8) == 0xd4bb30e2
    ensures Times(BitStep, 0x64, 8) == 0x4adfa541
    ensures Times(BitStep, 0x65, 8) == 0x3dd895d7
    ensures Times(BitStep, 0x66, 8) == 0xa4d1c46d
    ensures Times(BitStep, 0x67, 8) == 0xd3d6f4fb
    ensures Times(BitStep, 0x68, 8) == 0x4369e96a
    ensures Times(BitStep, 0x69, 8) == 0x346ed9fc
    ensures Times(BitStep, 0x6a, 8) == 0xad678846
    ensures Times(BitStep, 0x6b, 8) == 0xda60b8d0
    ensures Times(BitStep, 0x6c, 8) == 0x44042d73
    ensures Times(BitStep, 0x6d, 8) == 0x33031de5
    ensures Times(BitStep, 0x6e, 8) == 0xaa0a4c5f
    ensures Times(BitStep, 0x6f, 8) == 0xdd0d7cc9
  {
  }

  lemma Row7Divides(i: bv32)
    requires 0x70 <= i <= 0x7f
    ensures Row7(i) == Times(BitStep, i, 8)
  {
    Row7DividesLiterals();
  }

  lemma Row7DividesLiterals()
    ensures Times(BitStep, 0x70, 8) == 0x5005713c
    ensures Times(BitStep, 0x71, 8) == 0x270241aa
    ensures Times(BitStep, 0x72, 8) == 0xbe0b1010
    ensures Times(BitStep, 0x73, 8) == 0xc90c2086
    ensures Times(BitStep, 0x74, 8) == 0x5768b525
    ensures Times(BitStep, 0x75, 8) == 0x206f85b3
    ensures Times(BitStep, 0x76, 8) == 0xb966d409
    ensures Times(BitStep, 0x77, 8) == 0xce61e49f
    ensures Times(BitStep, 0x78, 8) == 0x5edef90e
    ensures Times(BitStep, 0x79, 8) == 0x29d9c998
    ensures Times(BitStep, 0x7a, 8) == 0xb0d09822
    ensures Times(BitStep, 0x7b, 8) == 0xc7d7a8b4
    ensures Times(BitStep, 0x7c, 8) == 0x59b33d17
    ensures Times(BitStep, 0x7d, 8) == 0x2eb40d81
    ensures Times(BitStep, 0x7e, 8) == 0xb7bd5c3b
    ensures Times(BitStep, 0x7f, 8) == 0xc0ba6cad
  {
  }

  lemma Row8Divides(i: bv32)
    requires 0x80 <= i <= 0x8f
    ensures Row8(i) == Times(BitStep, i, 8)
  {
    Row8DividesLiterals();
  }

  lemma Row8DividesLiterals()
    ensures Times(BitStep, 0x80, 8) == 0xedb88320
    ensures Times(BitStep, 0x81, 8) == 0x9abfb3b6
    ensures Times(BitStep, 0x82, 8) == 0x03b6e20c
    ensures Times(BitStep, 0x83, 8) == 0x74b1d29a
    ensures Times(BitStep, 0x84, 8) == 0xead54739
    ensures Times(BitStep, 0x85, 8) == 0x9dd277af
    ensures Times(BitStep, 0x86, 8) == 0x04db2615
    ensures Times(BitStep, 0x87, 8) == 0x73dc1683
    ensures Times(BitStep, 0x88, 8) == 0xe3630b12
    ensures Times(BitStep, 0x89, 8) == 0x94643b84
    ensures Times(BitStep, 0x8a, 8) == 0x0d6d6a3e
    ensures Times(BitStep, 0x8b, 8) == 0x7a6a5aa8
    ensures Times(BitStep, 0x8c, 8) == 0xe40ecf0b
    ensures Times(BitStep, 0x8d, 8) == 0x9309ff9d
    ensures Times(BitStep, 0x8e, 8) == 0x0a00ae27
    ensures Times(BitStep, 0x8f, 8) == 0x7d079eb1
  {
  }

  lemma Row9Divides(i: bv32)
    requires 0x90 <= i <= 0x9f
    ensures Row9(i) == Times(BitStep, i, 8)
  {
    Row9DividesLiterals();
  }

  lemma Row9DividesLiterals()
    ensures Times(BitStep, 0x90, 8) == 0xf00f9344
    ensures Times(BitStep, 0x91, 8) == 0x8708a3d2
    ensures Times(BitStep, 0x92, 8) == 0x1e01f268
    ensures Times(BitStep, 0x93, 8) == 0x6906c2fe
    ensures Times(BitStep, 0x94, 8) == 0xf762575d
    ensures Times(BitStep, 0x95, 8) == 0x806567cb
    ensures Times(BitStep, 0x96, 8) == 0x196c3671
    ensures Times(BitStep, 0x97, 8) == 0x6e6b06e7
    ensures Times(BitStep, 0x98, 8) == 0xfed41b76
    ensures Times(BitStep, 0x99, 8) == 0x89d32be0
    ensures Times(BitStep, 0x9a, 8) == 0x10da7a5a
    ensures Times(BitStep, 0x9b, 8) == 0x67dd4acc
    ensures Times(BitStep, 0x9c, 8) == 0xf9b9df6f
    ensures Times(BitStep, 0x9d, 8) == 0x8ebeeff9
    ensures Times(BitStep, 0x9e, 8) == 0x17b7be43
    ensures Times(BitStep, 0x9f, 8) == 0x60b08ed5
  {
  }

  lemma RowADivides(i: bv32)
    requires 0xa0 <= i <= 0xaf
    ensures RowA(i) == Times(BitStep, i, 8)
  {
    RowADividesLiterals();
  }

  lemma RowADividesLiterals()
    ensures Times(BitStep, 0xa0, 8) == 0xd6d6a3e8
    ensures Times(BitStep, 0xa1, 8) == 0xa1d1937e
    ensures Times(BitStep, 0xa2, 8) == 0x38d8c2c4
    ensures Times(BitStep, 0xa3, 8) == 0x4fdff252
    ensures Times(BitStep, 0xa4, 8) == 0xd1bb67f1
    ensures Times(BitStep, 0xa5, 8) == 0xa6bc5767
    ensures Times(BitStep, 0xa6, 8) == 0x3fb506dd
    ensures Times(BitStep, 0xa7, 8) == 0x48b2364b
    ensures Times(BitStep, 0xa8, 8) == 0xd80d2bda
    ensures Times(BitStep, 0xa9, 8) == 0xaf0a1b4c
    ensures Times(BitStep, 0xaa, 8) == 0x36034af6
    ensures Times(BitStep, 0xab, 8) == 0x41047a60
    ensures Times(BitStep, 0xac, 8) == 0xdf60efc3
    ensures Times(BitStep, 0xad, 8) == 0xa867df55
    ensures Times(BitStep, 0xae, 8) == 0x316e8eef
    ensures Times(BitStep, 0xaf, 8) == 0x4669be79
  {
  }

  lemma RowBDivides(i: bv32)
    requires 0xb0 <= i <= 0xbf
    ensures RowB(i) == Times(BitStep, i, 8)
  {
    RowBDividesLiterals();
  }

  lemma RowBDividesLiterals()
    ensures Times(BitStep, 0xb0, 8) == 0xcb61b38c
    ensures Times(BitStep, 0xb1, 8) == 0xbc66831a
    ensures Times(BitStep, 0xb2, 8) == 0x256fd2a0
    ensures Times(BitStep, 0xb3, 8) == 0x5268e236
    ensures Times(BitStep, 0xb4, 8) == 0xcc0c7795
    ensures Times(BitStep, 0xb5, 8) == 0xbb0b4703
    ensures Times(BitStep, 0xb6, 8) == 0x220216b9
    ensures Times(BitStep, 0xb7, 8) == 0x5505262f
    ensures Times(BitStep, 0xb8, 8) == 0xc5ba3bbe
    ensures Times(BitStep, 0xb9, 8) == 0xb2bd0b28
    ensures Times(BitStep, 0xba, 8) == 0x2bb45a92
    ensures Times(BitStep, 0xbb, 8) == 0x5cb36a04
    ensures Times(BitStep, 0xbc, 8) == 0xc2d7ffa7
    ensures Times(BitStep, 0xbd, 8) == 0xb5d0cf31
    ensures Times(BitStep, 0xbe, 8) == 0x2cd99e8b
    ensures Times(BitStep, 0xbf, 8) == 0x5bdeae1d
  {
  }

  lemma RowCDivides(i: bv32)
    requires 0xc0 <= i <= 0xcf
    ensures RowC(i) == Times(BitStep, i, 8)
  {
    RowCDividesLiterals();
  }

  lemma RowCDividesLiterals()
    ensures Times(BitStep, 0xc0, 8) == 0x9b64c2b0
    ensures Times(BitStep, 0xc1, 8) == 0xec63f226
    ensures Times(BitStep, 0xc2, 8) == 0x756aa39c
    ensures Times(BitStep, 0xc3, 8) == 0x026d930a
    ensures Times(BitStep, 0xc4, 8) == 0x9c0906a9
    ensures Times(BitStep, 0xc5, 8) == 0xeb0e363f
    ensures Times(BitStep, 0xc6, 8) == 0x72076785
    ensures Times(BitStep, 0xc7, 8) == 0x05005713
    ensures Times(BitStep, 0xc8, 8) == 0x95bf4a82
    ensures Times(BitStep, 0xc9, 8) == 0xe2b87a14
    ensures Times(BitStep, 0xca, 8) == 0x7bb12bae
    ensures Times(BitStep, 0xcb, 8) == 0x0cb61b38
    ensures Times(BitStep, 0xcc, 8) == 0x92d28e9b
    ensures Times(BitStep, 0xcd, 8) == 0xe5d5be0d
    ensures Times(BitStep, 0xce, 8) == 0x7cdcefb7
    ensures Times(BitStep, 0xcf, 8) == 0x0bdbdf21
  {
  }

  lemma RowDDivides(i: bv32)
    requires 0xd0 <= i <= 0xdf
    ensures RowD(i) == Times(BitStep, i, 8)
  {
    RowDDividesLiterals();
  }

  lemma RowDDividesLiterals()
    ensures Times(BitStep, 0xd0, 8) == 0x86d3d2d4
    ensures Times(BitStep, 0xd1, 8) == 0xf1d4e242
    ensures Times(BitStep, 0xd2, 8) == 0x68ddb3f8
    ensures Times(BitStep, 0xd3, 8) == 0x1fda836e
    ensures Times(BitStep, 0xd4, 8) == 0x81be16cd
    ensures Times(BitStep, 0xd5, 8) == 0xf6b9265b
    ensures Times(BitStep, 0xd6, 8) == 0x6fb077e1
    ensures Times(BitStep, 0xd7, 8) == 0x18b74777
    ensures Times(BitStep, 0xd8, 8) == 0x88085ae6
    ensures Times(BitStep, 0xd9, 8) == 0xff0f6a70
    ensures Times(BitStep, 0xda, 8) == 0x66063bca
    ensures Times(BitStep, 0xdb, 8) == 0x11010b5c
    ensures Times(BitStep, 0xdc, 8) == 0x8f659eff
    ensures Times(BitStep, 0xdd, 8) == 0xf862ae69
    ensures Times(BitStep, 0xde, 8) == 0x616bffd3
    ensures Times(BitStep, 0xdf, 8) == 0x166ccf45
  {
  }

  lemma RowEDivides(i: bv32)
    requires 0xe0 <= i <= 0xef
    ensures RowE(i) == Times(BitStep, i, 8)
  {
    RowEDividesLiterals();
  }

  lemma RowEDividesLiterals()
    ensures Times(BitStep, 0xe0, 8) == 0xa00ae278
    ensures Times(BitStep, 0xe1, 8) == 0xd70dd2ee
    ensures Times(BitStep, 0xe2, 8) == 0x4e048354
    ensures Times(BitStep, 0xe3, 8) == 0x3903b3c2
    ensures Times(BitStep, 0xe4, 8) == 0xa7672661
    ensures Times(BitStep, 0xe5, 8) == 0xd06016f7
    ensures Times(BitStep, 0xe6, 8) == 0x4969474d
    ensures Times(BitStep, 0xe7, 8) == 0x3e6e77db
    ensures Times(BitStep, 0xe8, 8) == 0xaed16a4a
    ensures Times(BitStep, 0xe9, 8) == 0xd9d65adc
    ensures Times(BitStep, 0xea, 8) == 0x40df0b66
    ensures Times(BitStep, 0xeb, 8) == 0x37d83bf0
    ensures Times(BitStep, 0xec, 8) == 0xa9bcae53
    ensures Times(BitStep, 0xed, 8) == 0xdebb9ec5
    ensures Times(BitStep, 0xee, 8) == 0x47b2cf7f
    ensures Times(BitStep, 0xef, 8) == 0x30b5ffe9
  {
  }

  lemma RowFDivides(i: bv32)
    requires 0xf0 <= i <= 0xff
    ensures RowF(i) == Times(BitStep, i, 8)
  {
    RowFDividesLiterals();
  }

  lemma RowFDividesLiterals()
    ensures Times(BitStep, 0xf0, 8) == 0xbdbdf21c
    ensures Times(BitStep, 0xf1, 8) == 0xcabac28a
    ensures Times(BitStep, 0xf2, 8) == 0x53b39330
    ensures Times(BitStep, 0xf3, 8) == 0x24b4a3a6
    ensures Times(BitStep, 0xf4, 8) == 0xbad03605
    ensures Times(BitStep, 0xf5, 8) == 0xcdd70693
    ensures Times(BitStep, 0xf6, 8) == 0x54de5729
    ensures Times(BitStep, 0xf7, 8) == 0x23d967bf
    ensures Times(BitStep, 0xf8, 8) == 0xb3667a2e
    ensures Times(BitStep, 0xf9, 8) == 0xc4614ab8
    ensures Times(BitStep, 0xfa, 8) == 0x5d681b02
    ensures Times(BitStep, 0xfb, 8) == 0x2a6f2b94
    ensures Times(BitStep, 0xfc, 8) == 0xb40bbe37
    ensures Times(BitStep, 0xfd, 8) == 0xc30c8ea1
    ensures Times(BitStep, 0xfe, 8) == 0x5a05df1b
    ensures Times(BitStep, 0xff, 8) == 0x2d02ef8d
  {
  }

  lemma TableDivides(i: bv32)
    requires i <= 0xff
    ensures ByteTable(i) == Times(BitStep, i, 8)
  {
    if i <= 0x0f { Row0Divides(i); }
    else if i <= 0x1f { Row1Divides(i); }
    else if i <= 0x2f { Row2Divides(i); }
    else if i <= 0x3f { Row3Divides(i); }
    else if i <= 0x4f { Row4Divides(i); }
    else if i <= 0x5f { Row5Divides(i); }
    else if i <= 0x6f { Row6Divides(i); }
    else if i <= 0x7f { Row7Divides(i); }
    else if i <= 0x8f { Row8Divides(i); }
    else if i <= 0x9f { Row9Divides(i); }
    else if i <= 0xaf { RowADivides(i); }
    else if i <= 0xbf { RowBDivides(i); }
    else if i <= 0xcf { RowCDivides(i); }
    else if i <= 0xdf { RowDDivides(i); }
    else if i <= 0xef { RowEDivides(i); }
    else { RowFDivides(i); }
  }

  /* ----------------------------------------------------- division is linear */

  lemma BothEven(a: bv32, b: bv32)
    ensures (a ^ b) >> 1 == (a >> 1) ^ (b >> 1)
  {
  }

  lemma BothOdd(a: bv32, b: bv32)
    ensures (a ^ b) >> 1 == ((a >> 1) ^ 0xedb88320) ^ ((b >> 1) ^ 0xedb88320)
  {
  }

  lemma FirstOdd(a: bv32, b: bv32)
    ensures ((a ^ b) >> 1) ^ 0xedb88320 == ((a >> 1) ^ 0xedb88320) ^ (b >> 1)
  {
  }

  lemma SecondOdd(a: bv32, b: bv32)
    ensures ((a ^ b) >> 1) ^ 0xedb88320 == (a >> 1) ^ ((b >> 1) ^ 0xedb88320)
  {
  }

  lemma EvenOrOdd(a: bv32)
    ensures a & 1 == 0 || a & 1 == 1
  {
  }

  lemma LinearBothEven(a: bv32, b: bv32)
    requires a & 1 == 0 && b & 1 == 0
    ensures BitStep(a ^ b) == BitStep(a) ^ BitStep(b)
  {
    BothEven(a, b);
  }

  lemma LinearBothOdd(a: bv32, b: bv32)
    requires a & 1 == 1 && b & 1 == 1
    ensures BitStep(a ^ b) == BitStep(a) ^ BitStep(b)
  {
    BothOdd(a, b);
  }

  lemma LinearFirstOdd(a: bv32, b: bv32)
    requires a & 1 == 1 && b & 1 == 0
    ensures BitStep(a ^ b) == BitStep(a) ^ BitStep(b)
  {
    FirstOdd(a, b);
  }

  lemma LinearSecondOdd(a: bv32, b: bv32)
    requires a & 1 == 0 && b & 1 == 1
    ensures BitStep(a ^ b) == BitStep(a) ^ BitStep(b)
  {
    SecondOdd(a, b);
  }

  /** One step of a sum is the sum of the steps. */
  lemma BitIsLinear(a: bv32, b: bv32)
    ensures BitStep(a ^ b) == BitStep(a) ^ BitStep(b)
  {
    EvenOrOdd(a);
    EvenOrOdd(b);
    if a & 1 == 0 {
      if b & 1 == 0 {
        LinearBothEven(a, b);
      } else {
        LinearSecondOdd(a, b);
      }
    } else if b & 1 == 0 {
      LinearFirstOdd(a, b);
    } else {
      LinearBothOdd(a, b);
    }
  }

  /** A linear step stays linear however often it is taken. */
  lemma {:induction false} LinearSteps<W(!new)>(step: W -> W, xor: (W, W) -> W, a: W, b: W, ticks: seq<bool>)
    requires forall u, v :: step(xor(u, v)) == xor(step(u), step(v))
    ensures Steps(step, xor(a, b), ticks) == xor(Steps(step, a, ticks), Steps(step, b, ticks))
    decreases |ticks|
  {
    if ticks != [] {
      LinearSteps(step, xor, step(a), step(b), ticks[1..]);
    }
  }

  function Xor(a: bv32, b: bv32): bv32 {
    a ^ b
  }

  lemma BitsAreLinear()
    ensures forall u, v :: BitStep(Xor(u, v)) == Xor(BitStep(u), BitStep(v))
  {
    forall u, v
      ensures BitStep(Xor(u, v)) == Xor(BitStep(u), BitStep(v))
    {
      BitIsLinear(u, v);
    }
  }

  lemma {:induction false} StepsTwice<W>(step: W -> W, x: W, a: seq<bool>, b: seq<bool>)
    ensures Steps(step, x, a + b) == Steps(step, Steps(step, x, a), b)
    decreases |a|
  {
    if a == [] {
      assert a + b == b;
    } else {
      assert (a + b)[1..] == a[1..] + b;
      StepsTwice(step, step(x), a[1..], b);
    }
  }

  lemma {:induction false} StepsAreTimes<W>(step: W -> W, x: W, ticks: seq<bool>)
    ensures Steps(step, x, ticks) == Times(step, x, |ticks|)
    decreases |ticks|
  {
    if ticks != [] {
      StepsAreTimes(step, step(x), ticks[1..]);
    }
  }

  lemma StepsFour<W>(step: W -> W, x: W)
    ensures Steps(step, x, NIBBLE) == Times(step, x, 4) == step(step(step(step(x))))
  {
    StepsAreTimes(step, x, NIBBLE);
  }

  lemma StepsEight<W>(step: W -> W, x: W)
    ensures Steps(step, x, BYTE) == Times(step, x, 8)
  {
    StepsAreTimes(step, x, BYTE);
  }

  /* What stands above the bits divided out only comes down. */

  lemma Down8(y: bv32)
    requires y <= 0xff_ffff
    ensures BitStep(y << 8) == y << 7
  {
  }

  lemma Down7(y: bv32)
    requires y <= 0xff_ffff
    ensures BitStep(y << 7) == y << 6
  {
  }

  lemma Down6(y: bv32)
    requires y <= 0xff_ffff
    ensures BitStep(y << 6) == y << 5
  {
  }

  lemma Down5(y: bv32)
    requires y <= 0xff_ffff
    ensures BitStep(y << 5) == y << 4
  {
  }

  lemma Down4(y: bv32)
    requires y <= 0xff_ffff
    ensures BitStep(y << 4) == y << 3
  {
  }

  lemma Down3(y: bv32)
    requires y <= 0xff_ffff
    ensures BitStep(y << 3) == y << 2
  {
  }

  lemma Down2(y: bv32)
    requires y <= 0xff_ffff
    ensures BitStep(y << 2) == y << 1
  {
  }

  lemma Down1(y: bv32)
    requires y <= 0xff_ffff
    ensures BitStep(y << 1) == y
  {
  }

  lemma Down4Of28(y: bv32)
    requires y <= 0xfff_ffff
    ensures BitStep(y << 4) == y << 3
  {
  }

  lemma Down3Of28(y: bv32)
    requires y <= 0xfff_ffff
    ensures BitStep(y << 3) == y << 2
  {
  }

  lemma Down2Of28(y: bv32)
    requires y <= 0xfff_ffff
    ensures BitStep(y << 2) == y << 1
  {
  }

  lemma Down1Of28(y: bv32)
    requires y <= 0xfff_ffff
    ensures BitStep(y << 1) == y
  {
  }

  /** Steps along a known path. */
  lemma AlongFour<W>(step: W -> W, a: W, b: W, c: W, d: W, e: W)
    requires step(a) == b && step(b) == c && step(c) == d && step(d) == e
    ensures Steps(step, a, NIBBLE) == e
  {
    StepsFour(step, a);
  }

  lemma ComesDown8(y: bv32)
    requires y <= 0xff_ffff
    ensures Divide(y << 8, BYTE) == y
  {
    Down8(y);
    Down7(y);
    Down6(y);
    Down5(y);
    Down4(y);
    Down3(y);
    Down2(y);
    Down1(y);
    AlongFour(BitStep, y << 8, y << 7, y << 6, y << 5, y << 4);
    AlongFour(BitStep, y << 4, y << 3, y << 2, y << 1, y);
    StepsTwice(BitStep, y << 8, NIBBLE, NIBBLE);
  }

  lemma ComesDown4(y: bv32)
    requires y <= 0xfff_ffff
    ensures Divide(y << 4, NIBBLE) == y
  {
    Down4Of28(y);
    Down3Of28(y);
    Down2Of28(y);
    Down1Of28(y);
    AlongFour(BitStep, y << 4, y << 3, y << 2, y << 1, y);
  }

  lemma SplitByte(x: bv32)
    ensures x == (x & 0xff) ^ ((x >> 8) << 8) && x >> 8 <= 0xff_ffff && x & 0xff <= 0xff
  {
  }

  lemma SplitNibble(x: bv32)
    ensures x == (x & 0xf) ^ ((x >> 4) << 4) && x >> 4 <= 0xfff_ffff && x & 0xf <= 0xf
  {
  }

  /** Steps taken on a sum, one part of which comes to `down` and the other has a table entry. */
  lemma SumByTable<W(!new)>(step: W -> W, xor: (W, W) -> W, table: W -> W, x: W, low: W, high: W, down: W, n: seq<bool>)
    requires forall u, v :: step(xor(u, v)) == xor(step(u), step(v))
    requires x == xor(low, high) && Steps(step, high, n) == down && table(low) == Steps(step, low, n)
    ensures Steps(step, x, n) == xor(table(low), down)
  {
    LinearSteps(step, xor, low, high, n);
  }

  ghost predicate Linear(step: bv32 -> bv32) {
    forall u, v :: step(Xor(u, v)) == Xor(step(u), step(v))
  }

  /** The table has the low nibble's share of the steps, which bring the rest down. */
  ghost predicate NibbleReady(step: bv32 -> bv32, table: bv32 -> bv32, x: bv32, n: seq<bool>) {
    && Linear(step)
    && table(x & 0xf) == Steps(step, x & 0xf, n)
    && Steps(step, (x >> 4) << 4, n) == x >> 4
  }

  ghost predicate ByteReady(step: bv32 -> bv32, table: bv32 -> bv32, x: bv32, n: seq<bool>) {
    && Linear(step)
    && table(x & 0xff) == Steps(step, x & 0xff, n)
    && Steps(step, (x >> 8) << 8, n) == x >> 8
  }

  lemma NibbleByTable(step: bv32 -> bv32, table: bv32 -> bv32, x: bv32, n: seq<bool>)
    requires NibbleReady(step, table, x, n)
    ensures ByNibble(table, x) == Steps(step, x, n)
  {
    SplitNibble(x);
    SumByTable(step, Xor, table, x, x & 0xf, (x >> 4) << 4, x >> 4, n);
    NibbleOrder(table, x);
  }

  lemma NibbleOrder(table: bv32 -> bv32, x: bv32)
    ensures ByNibble(table, x) == Xor(table(x & 0xf), x >> 4)
  {
  }

  lemma WordByTable(step: bv32 -> bv32, table: bv32 -> bv32, x: bv32, n: seq<bool>)
    requires ByteReady(step, table, x, n)
    ensures Xor(table(x & 0xff), x >> 8) == Steps(step, x, n)
  {
    SplitByte(x);
    SumByTable(step, Xor, table, x, x & 0xff, (x >> 8) << 8, x >> 8, n);
  }

  lemma ByteByTable(step: bv32 -> bv32, table: bv32 -> bv32, crc: bv32, b: bv32, n: seq<bool>)
    requires ByteReady(step, table, crc ^ b, n) && b <= 0xff
    ensures ByByte(table, crc, b) == Steps(step, crc ^ b, n)
  {
    WordByTable(step, table, crc ^ b, n);
    ByteOrder(table, crc, b);
  }

  lemma ByteOrder(table: bv32 -> bv32, crc: bv32, b: bv32)
    requires b <= 0xff
    ensures ByByte(table, crc, b) == Xor(table((crc ^ b) & 0xff), (crc ^ b) >> 8)
  {
    ByteOnly(crc, b);
  }

  lemma ByteOnly(crc: bv32, b: bv32)
    requires b <= 0xff
    ensures (crc ^ b) >> 8 == crc >> 8 && (b ^ crc) & 0xff == (crc ^ b) & 0xff
  {
  }

  /* ------------------------------------------------------------- agreement */

  lemma NibbleEntry(x: bv32)
    ensures NibbleTable(x & 0xf) == Steps(BitStep, x & 0xf, NIBBLE)
  {
    SplitNibble(x);
    NibbleDivides(x & 0xf);
    StepsFour(BitStep, x & 0xf);
  }

  lemma NibbleRest(x: bv32)
    ensures Steps(BitStep, (x >> 4) << 4, NIBBLE) == x >> 4
  {
    SplitNibble(x);
    ComesDown4(x >> 4);
  }

  lemma ByteEntry(x: bv32)
    ensures ByteTable(x & 0xff) == Steps(BitStep, x & 0xff, BYTE)
  {
    SplitByte(x);
    TableDivides(x & 0xff);
    StepsEight(BitStep, x & 0xff);
  }

  lemma ByteRest(x: bv32)
    ensures Steps(BitStep, (x >> 8) << 8, BYTE) == x >> 8
  {
    SplitByte(x);
    ComesDown8(x >> 8);
  }

  lemma NibblesReady(x: bv32)
    ensures NibbleReady(BitStep, NibbleTable, x, NIBBLE)
  {
    BitsAreLinear();
    NibbleEntry(x);
    NibbleRest(x);
  }

  lemma BytesReady(x: bv32)
    ensures ByteReady(BitStep, ByteTable, x, BYTE)
  {
    BitsAreLinear();
    ByteEntry(x);
    ByteRest(x);
  }

  lemma NibbleStepIs(x: bv32)
    ensures NibbleStep(x) == Divide(x, NIBBLE)
  {
    NibblesReady(x);
    NibbleByTable(BitStep, NibbleTable, x, NIBBLE);
  }

  lemma ByteFits(b: bv8)
    ensures b as bv32 <= 0xff
  {
  }

  /** Two nibbles by the small table divide one byte out. */
  lemma NibblesStepIs(crc: bv32, b: bv8)
    ensures NibblesStep(crc, b) == ByteStep(crc, b)
  {
    var x := crc ^ (b as bv32);
    NibbleStepIs(x);
    NibbleStepIs(NibbleStep(x));
    StepsTwice(BitStep, x, NIBBLE, NIBBLE);
  }

  /** One byte by the large table does too. */
  lemma TableStepIs(crc: bv32, b: bv8)
    ensures TableStep(crc, b) == ByteStep(crc, b)
  {
    ByteFits(b);
    BytesReady(crc ^ (b as bv32));
    ByteByTable(BitStep, ByteTable, crc, b as bv32, BYTE);
  }

  lemma Inverted(x: bv32)
    ensures !x == x ^ 0xffff_ffff
  {
  }

  /** The nibble-table loop computes the CRC of any bytes. */
  method NibbleCrc(data: seq<bv8>) returns (crc: bv32)
    ensures crc == Crc(data)
  {
    crc := 0xffff_ffff;
    for i := 0 to |data|
      invariant crc == Fold(0xffff_ffff, data[..i])
    {
      NibblesStepIs(crc, data[i]);
      assert data[..i + 1][..i] == data[..i];
      crc := NibblesStep(crc, data[i]);
    }
    assert data[..|data|] == data;
    crc := crc ^ 0xffff_ffff;
  }

  /** So does the byte-table loop, so the two agree on every byte sequence. */
  method TableCrc(data: seq<bv8>) returns (crc: bv32)
    ensures crc == Crc(data)
  {
    crc := 0xffff_ffff;
    for i := 0 to |data|
      invariant crc == Fold(0xffff_ffff, data[..i])
    {
      TableStepIs(crc, data[i]);
      assert data[..i + 1][..i] == data[..i];
      crc := TableStep(crc, data[i]);
    }
    assert data[..|data|] == data;
    Inverted(crc);
    crc := !crc;
  }
}
