/**
 How a lookup hashes, and the facts about the tables that make it right. AllShaped, AllInText and AllFound
 state them for every entry; the numbered lemmas before them check the tables, a few entries at a time.
 */
module KeywordEntries {
  import opened KeywordTables

  predicate IsLetter(c: byte) { 0x41 <= c <= 0x5A }

  /** charMap: the capital letters become small ones, every other byte stays (tokenize.c:109, global.c:24-41). */
  function Lower(c: byte): byte { if IsLetter(c) then c + 0x20 else c }

  function Width(n: nat): bv32
    requires n < 0x8000_0000
  {
    n as bv32
  }

  function Number(x: bv32): nat { x as nat }

  /** How first byte, last byte and length are mixed (keywordhash.h:138). */
  function Blend(first: byte, last: byte, n: bv32): bv32
  {
    (first as bv32 * 4) ^ (last as bv32 * 3) ^ n
  }

  function Mix(z: seq<byte>): bv32
    requires 2 <= |z| < 0x8000_0000
  {
    Blend(Lower(z[0]), Lower(z[|z| - 1]), Width(|z|))
  }

  /** The bucket of a text. */
  function Hash(z: seq<byte>): nat
    requires 2 <= |z| < 0x8000_0000
  {
    Number(Mix(z)) % 127
  }

  /** The keywords CURRENT_DATE, CURRENT_TIMESTAMP and CURRENT_TIME. */
  predicate HasUnderscore(i: nat) { i == 71 || i == 99 || i == 100 }

  /** The first n bytes of w stand in zText from `off` on, and are letters, but for an underscore at 7 if `us`. */
  predicate Spelled(off: int, w: seq<byte>, n: nat, us: bool)
    requires n <= |w|
  {
    || n == 0
    || (0 <= off && off + n <= 553 && ZText(off + n - 1) == w[n - 1]
        && (if us && n == 8 then w[n - 1] == US else IsLetter(w[n - 1]))
        && Spelled(off, w, n - 1, us))
  }

  /** Keyword i is as long as its entry says, and starts and ends with a letter. */
  predicate Shaped(i: nat)
    requires i < 124
  {
    2 <= |Word(i)| <= 17 && |Word(i)| == ALen(i) && IsLetter(Word(i)[0]) && IsLetter(Word(i)[|Word(i)| - 1])
  }

  /** Entry i spells keyword i. */
  predicate InText(i: nat)
    requires i < 124
  {
    Spelled(AOffset(i), Word(i), |Word(i)|, HasUnderscore(i))
  }

  /** From s on, the chain reaches entry i, and no entry on the way is the keyword w. */
  predicate OnChain(w: seq<byte>, s: int, i: nat)
    requires s < 124
    decreases s
  {
    s >= 0 && (s == i || (Word(s) != w && OnChain(w, ANext(s) - 1, i)))
  }

  /** The head of the chain for a text. */
  function Head(z: seq<byte>): (s: int)
    requires 2 <= |z| < 0x8000_0000
    ensures -1 <= s < 124
  {
    AHash(Hash(z)) - 1
  }

  /** Keyword i is found from the head of its own bucket. */
  predicate Found(i: nat)
    requires i < 124
  {
    2 <= |Word(i)| <= 17 && OnChain(Word(i), Head(Word(i)), i)
  }

  lemma Widths()
    ensures Width(2) == 2 && Width(3) == 3 && Width(4) == 4 && Width(5) == 5 && Width(6) == 6 && Width(7) == 7
        && Width(8) == 8 && Width(9) == 9
    ensures Width(10) == 10 && Width(11) == 11 && Width(12) == 12 && Width(13) == 13 && Width(14) == 14
        && Width(15) == 15 && Width(16) == 16 && Width(17) == 17
  {
  }

  lemma Numbers0()
    ensures Number(129) == 129 && Number(132) == 132 && Number(135) == 135 && Number(140) == 140
        && Number(141) == 141 && Number(143) == 143
    ensures Number(145) == 145 && Number(147) == 147 && Number(150) == 150 && Number(153) == 153
        && Number(155) == 155 && Number(158) == 158
    ensures Number(161) == 161 && Number(167) == 167 && Number(168) == 168 && Number(170) == 170
        && Number(171) == 171 && Number(178) == 178
    ensures Number(181) == 181 && Number(183) == 183 && Number(186) == 186 && Number(187) == 187
        && Number(189) == 189 && Number(191) == 191
    ensures Number(196) == 196 && Number(197) == 197 && Number(199) == 199 && Number(200) == 200
        && Number(201) == 201 && Number(203) == 203
    ensures Number(205) == 205 && Number(206) == 206 && Number(213) == 213 && Number(215) == 215
        && Number(217) == 217 && Number(218) == 218
    ensures Number(223) == 223 && Number(224) == 224 && Number(226) == 226 && Number(230) == 230
        && Number(231) == 231 && Number(232) == 232
    ensures Number(237) == 237 && Number(238) == 238 && Number(239) == 239 && Number(241) == 241
        && Number(244) == 244 && Number(247) == 247
    ensures Number(250) == 250 && Number(251) == 251 && Number(253) == 253
  {
  }

  lemma Numbers63()
    ensures Number(129) == 129 && Number(130) == 130 && Number(135) == 135 && Number(137) == 137
        && Number(142) == 142 && Number(145) == 145
    ensures Number(146) == 146 && Number(148) == 148 && Number(153) == 153 && Number(155) == 155
        && Number(156) == 156 && Number(159) == 159
    ensures Number(164) == 164 && Number(165) == 165 && Number(167) == 167 && Number(171) == 171
        && Number(172) == 172 && Number(174) == 174
    ensures Number(175) == 175 && Number(180) == 180 && Number(185) == 185 && Number(190) == 190
        && Number(192) == 192 && Number(195) == 195
    ensures Number(196) == 196 && Number(198) == 198 && Number(203) == 203 && Number(205) == 205
        && Number(208) == 208 && Number(212) == 212
    ensures Number(213) == 213 && Number(214) == 214 && Number(215) == 215 && Number(216) == 216
        && Number(219) == 219 && Number(221) == 221
    ensures Number(224) == 224 && Number(225) == 225 && Number(228) == 228 && Number(229) == 229
        && Number(230) == 230 && Number(233) == 233
    ensures Number(236) == 236 && Number(239) == 239 && Number(246) == 246 && Number(248) == 248
        && Number(254) == 254 && Number(255) == 255
  {
  }

  lemma Shapes0()
    ensures Shaped(0) && Shaped(1) && Shaped(2) && Shaped(3) && Shaped(4) && Shaped(5) && Shaped(6) && Shaped(7)
  {
  }

  lemma Shapes8()
    ensures Shaped(8) && Shaped(9) && Shaped(10) && Shaped(11) && Shaped(12) && Shaped(13) && Shaped(14) && Shaped(15)
  {
  }

  lemma Shapes16()
    ensures Shaped(16) && Shaped(17) && Shaped(18) && Shaped(19) && Shaped(20) && Shaped(21) && Shaped(22) && Shaped(23)
  {
  }

  lemma Shapes24()
    ensures Shaped(24) && Shaped(25) && Shaped(26) && Shaped(27) && Shaped(28) && Shaped(29) && Shaped(30) && Shaped(31)
  {
  }

  lemma Shapes32()
    ensures Shaped(32) && Shaped(33) && Shaped(34) && Shaped(35) && Shaped(36) && Shaped(37) && Shaped(38) && Shaped(39)
  {
  }

  lemma Shapes40()
    ensures Shaped(40) && Shaped(41) && Shaped(42) && Shaped(43) && Shaped(44) && Shaped(45) && Shaped(46) && Shaped(47)
  {
  }

  lemma Shapes48()
    ensures Shaped(48) && Shaped(49) && Shaped(50) && Shaped(51) && Shaped(52) && Shaped(53) && Shaped(54) && Shaped(55)
  {
  }

  lemma Shapes56()
    ensures Shaped(56) && Shaped(57) && Shaped(58) && Shaped(59) && Shaped(60) && Shaped(61) && Shaped(62) && Shaped(63)
  {
  }

  lemma Shapes64()
    ensures Shaped(64) && Shaped(65) && Shaped(66) && Shaped(67) && Shaped(68) && Shaped(69) && Shaped(70) && Shaped(71)
  {
  }

  lemma Shapes72()
    ensures Shaped(72) && Shaped(73) && Shaped(74) && Shaped(75) && Shaped(76) && Shaped(77) && Shaped(78) && Shaped(79)
  {
  }

  lemma Shapes80()
    ensures Shaped(80) && Shaped(81) && Shaped(82) && Shaped(83) && Shaped(84) && Shaped(85) && Shaped(86) && Shaped(87)
  {
  }

  lemma Shapes88()
    ensures Shaped(88) && Shaped(89) && Shaped(90) && Shaped(91) && Shaped(92) && Shaped(93) && Shaped(94) && Shaped(95)
  {
  }

  lemma Shapes96()
    ensures Shaped(96) && Shaped(97) && Shaped(98) && Shaped(99) && Shaped(100) && Shaped(101) && Shaped(102)
        && Shaped(103)
  {
  }

  lemma Shapes104()
    ensures Shaped(104) && Shaped(105) && Shaped(106) && Shaped(107) && Shaped(108) && Shaped(109) && Shaped(110)
        && Shaped(111)
  {
  }

  lemma Shapes112()
    ensures Shaped(112) && Shaped(113) && Shaped(114) && Shaped(115) && Shaped(116) && Shaped(117) && Shaped(118)
        && Shaped(119)
  {
  }

  lemma Shapes120()
    ensures Shaped(120) && Shaped(121) && Shaped(122) && Shaped(123)
  {
  }

  lemma Texts0()
    ensures InText(0) && InText(1)
  {
    assert AOffset(0) == 0 && |Word(0)| == 7;
    assert Spelled(0, Word(0), 5, false) && Spelled(0, Word(0), 7, false) by { hide AOffset; }
    assert AOffset(1) == 2 && |Word(1)| == 7;
    assert Spelled(2, Word(1), 5, false) && Spelled(2, Word(1), 7, false) by { hide AOffset; }
    hide AOffset, Word, Spelled;
  }

  lemma Texts2()
    ensures InText(2) && InText(3) && InText(4)
  {
    assert AOffset(2) == 2 && |Word(2)| == 5;
    assert Spelled(2, Word(2), 5, false) by { hide AOffset; }
    assert AOffset(3) == 8 && |Word(3)| == 4;
    assert Spelled(8, Word(3), 4, false) by { hide AOffset; }
    assert AOffset(4) == 9 && |Word(4)| == 6;
    assert Spelled(9, Word(4), 5, false) && Spelled(9, Word(4), 6, false) by { hide AOffset; }
    hide AOffset, Word, Spelled;
  }

  lemma Texts5()
    ensures InText(5) && InText(6) && InText(7)
  {
    assert AOffset(5) == 14 && |Word(5)| == 4;
    assert Spelled(14, Word(5), 4, false) by { hide AOffset; }
    assert AOffset(6) == 16 && |Word(6)| == 5;
    assert Spelled(16, Word(6), 5, false) by { hide AOffset; }
    assert AOffset(7) == 20 && |Word(7)| == 3;
    assert Spelled(20, Word(7), 3, false) by { hide AOffset; }
    hide AOffset, Word, Spelled;
  }

  lemma Texts8()
    ensures InText(8) && InText(9)
  {
    assert AOffset(8) == 23 && |Word(8)| == 6;
    assert Spelled(23, Word(8), 5, false) && Spelled(23, Word(8), 6, false) by { hide AOffset; }
    assert AOffset(9) == 25 && |Word(9)| == 7;
    assert Spelled(25, Word(9), 5, false) && Spelled(25, Word(9), 7, false) by { hide AOffset; }
    hide AOffset, Word, Spelled;
  }

  lemma Texts10()
    ensures InText(10) && InText(11) && InText(12)
  {
    assert AOffset(10) == 25 && |Word(10)| == 3;
    assert Spelled(25, Word(10), 3, false) by { hide AOffset; }
    assert AOffset(11) == 29 && |Word(11)| == 6;
    assert Spelled(29, Word(11), 5, false) && Spelled(29, Word(11), 6, false) by { hide AOffset; }
    assert AOffset(12) == 33 && |Word(12)| == 6;
    assert Spelled(33, Word(12), 5, false) && Spelled(33, Word(12), 6, false) by { hide AOffset; }
    hide AOffset, Word, Spelled;
  }

  lemma Texts13()
    ensures InText(13) && InText(14)
  {
    assert AOffset(13) == 36 && |Word(13)| == 7;
    assert Spelled(36, Word(13), 5, false) && Spelled(36, Word(13), 7, false) by { hide AOffset; }
    assert AOffset(14) == 41 && |Word(14)| == 7;
    assert Spelled(41, Word(14), 5, false) && Spelled(41, Word(14), 7, false) by { hide AOffset; }
    hide AOffset, Word, Spelled;
  }

  lemma Texts15()
    ensures InText(15) && InText(16) && InText(17)
  {
    assert AOffset(15) == 46 && |Word(15)| == 3;
    assert Spelled(46, Word(15), 3, false) by { hide AOffset; }
    assert AOffset(16) == 48 && |Word(16)| == 8;
    assert Spelled(48, Word(16), 5, false) && Spelled(48, Word(16), 8, false) by { hide AOffset; }
    assert AOffset(17) == 53 && |Word(17)| == 2;
    assert Spelled(53, Word(17), 2, false) by { hide AOffset; }
    hide AOffset, Word, Spelled;
  }

  lemma Texts18()
    ensures InText(18) && InText(19) && InText(20)
  {
    assert AOffset(18) == 54 && |Word(18)| == 6;
    assert Spelled(54, Word(18), 5, false) && Spelled(54, Word(18), 6, false) by { hide AOffset; }
    assert AOffset(19) == 59 && |Word(19)| == 5;
    assert Spelled(59, Word(19), 5, false) by { hide AOffset; }
    assert AOffset(20) == 62 && |Word(20)| == 4;
    assert Spelled(62, Word(20), 4, false) by { hide AOffset; }
    hide AOffset, Word, Spelled;
  }

  lemma Texts21()
    ensures InText(21) && InText(22)
  {
    assert AOffset(21) == 65 && |Word(21)| == 4;
    assert Spelled(65, Word(21), 4, false) by { hide AOffset; }
    assert AOffset(22) == 67 && |Word(22)| == 3;
    assert Spelled(67, Word(22), 3, false) by { hide AOffset; }
    hide AOffset, Word, Spelled;
  }

  lemma Texts23()
    ensures InText(23) && InText(24)
  {
    assert AOffset(23) == 69 && |Word(23)| == 10;
    assert Spelled(69, Word(23), 4, false) && Spelled(69, Word(23), 7, false)
        && Spelled(69, Word(23), 10, false) by { hide AOffset; }
    assert AOffset(24) == 78 && |Word(24)| == 4;
    assert Spelled(78, Word(24), 4, false) by { hide AOffset; }
    hide AOffset, Word, Spelled;
  }

  lemma Texts25()
    ensures InText(25)
  {
    assert AOffset(25) == 81 && |Word(25)| == 6;
    assert Spelled(81, Word(25), 5, false) && Spelled(81, Word(25), 6, false) by { hide AOffset; }
    hide AOffset, Word, Spelled;
  }

  lemma Texts26()
    ensures InText(26)
  {
    assert AOffset(26) == 86 && |Word(26)| == 11;
    assert Spelled(86, Word(26), 4, false) && Spelled(86, Word(26), 7, false) && Spelled(86, Word(26), 10, false)
        && Spelled(86, Word(26), 11, false) by { hide AOffset; }
    hide AOffset, Word, Spelled;
  }

  lemma Texts27()
    ensures InText(27) && InText(28) && InText(29)
  {
    assert AOffset(27) == 91 && |Word(27)| == 6;
    assert Spelled(91, Word(27), 5, false) && Spelled(91, Word(27), 6, false) by { hide AOffset; }
    assert AOffset(28) == 95 && |Word(28)| == 2;
    assert Spelled(95, Word(28), 2, false) by { hide AOffset; }
    assert AOffset(29) == 96 && |Word(29)| == 7;
    assert Spelled(96, Word(29), 5, false) && Spelled(96, Word(29), 7, false) by { hide AOffset; }
    hide AOffset, Word, Spelled;
  }

  lemma Texts30()
    ensures InText(30) && InText(31)
  {
    assert AOffset(30) == 101 && |Word(30)| == 5;
    assert Spelled(101, Word(30), 5, false) by { hide AOffset; }
    assert AOffset(31) == 105 && |Word(31)| == 5;
    assert Spelled(105, Word(31), 5, false) by { hide AOffset; }
    hide AOffset, Word, Spelled;
  }

  lemma Texts32()
    ensures InText(32) && InText(33)
  {
    assert AOffset(32) == 109 && |Word(32)| == 9;
    assert Spelled(109, Word(32), 5, false) && Spelled(109, Word(32), 9, false) by { hide AOffset; }
    assert AOffset(33) == 117 && |Word(33)| == 6;
    assert Spelled(117, Word(33), 5, false) && Spelled(117, Word(33), 6, false) by { hide AOffset; }
    hide AOffset, Word, Spelled;
  }

  lemma Texts34()
    ensures InText(34)
  {
    assert AOffset(34) == 122 && |Word(34)| == 9;
    assert Spelled(122, Word(34), 5, false) && Spelled(122, Word(34), 9, false) by { hide AOffset; }
    hide AOffset, Word, Spelled;
  }

  lemma Texts35()
    ensures InText(35)
  {
    assert AOffset(35) == 128 && |Word(35)| == 9;
    assert Spelled(128, Word(35), 5, false) && Spelled(128, Word(35), 9, false) by { hide AOffset; }
    hide AOffset, Word, Spelled;
  }

  lemma Texts36()
    ensures InText(36)
  {
    assert AOffset(36) == 136 && |Word(36)| == 7;
    assert Spelled(136, Word(36), 5, false) && Spelled(136, Word(36), 7, false) by { hide AOffset; }
    hide AOffset, Word, Spelled;
  }

  lemma Texts37()
    ensures InText(37)
  {
    assert AOffset(37) == 142 && |Word(37)| == 10;
    assert Spelled(142, Word(37), 4, false) && Spelled(142, Word(37), 7, false)
        && Spelled(142, Word(37), 10, false) by { hide AOffset; }
    hide AOffset, Word, Spelled;
  }

  lemma Texts38()
    ensures InText(38) && InText(39)
  {
    assert AOffset(38) == 152 && |Word(38)| == 10;
    assert Spelled(152, Word(38), 4, false) && Spelled(152, Word(38), 7, false)
        && Spelled(152, Word(38), 10, false) by { hide AOffset; }
    assert AOffset(39) == 159 && |Word(39)| == 4;
    assert Spelled(159, Word(39), 4, false) by { hide AOffset; }
    hide AOffset, Word, Spelled;
  }

  lemma Texts40()
    ensures InText(40) && InText(41) && InText(42)
  {
    assert AOffset(40) == 162 && |Word(40)| == 6;
    assert Spelled(162, Word(40), 5, false) && Spelled(162, Word(40), 6, false) by { hide AOffset; }
    assert AOffset(41) == 162 && |Word(41)| == 2;
    assert Spelled(162, Word(41), 2, false) by { hide AOffset; }
    assert AOffset(42) == 165 && |Word(42)| == 3;
    assert Spelled(165, Word(42), 3, false) by { hide AOffset; }
    hide AOffset, Word, Spelled;
  }

  lemma Texts43()
    ensures InText(43)
  {
    assert AOffset(43) == 167 && |Word(43)| == 9;
    assert Spelled(167, Word(43), 5, false) && Spelled(167, Word(43), 9, false) by { hide AOffset; }
    hide AOffset, Word, Spelled;
  }

  lemma Texts44()
    ensures InText(44) && InText(45)
  {
    assert AOffset(44) == 167 && |Word(44)| == 4;
    assert Spelled(167, Word(44), 4, false) by { hide AOffset; }
    assert AOffset(45) == 171 && |Word(45)| == 2;
    assert Spelled(171, Word(45), 2, false) by { hide AOffset; }
    hide AOffset, Word, Spelled;
  }

  lemma Texts46()
    ensures InText(46) && InText(47)
  {
    assert AOffset(46) == 176 && |Word(46)| == 6;
    assert Spelled(176, Word(46), 5, false) && Spelled(176, Word(46), 6, false) by { hide AOffset; }
    assert AOffset(47) == 179 && |Word(47)| == 5;
    assert Spelled(179, Word(47), 5, false) by { hide AOffset; }
    hide AOffset, Word, Spelled;
  }

  lemma Texts48()
    ensures InText(48) && InText(49)
  {
    assert AOffset(48) == 184 && |Word(48)| == 7;
    assert Spelled(184, Word(48), 5, false) && Spelled(184, Word(48), 7, false) by { hide AOffset; }
    assert AOffset(49) == 184 && |Word(49)| == 4;
    assert Spelled(184, Word(49), 4, false) by { hide AOffset; }
    hide AOffset, Word, Spelled;
  }

  lemma Texts50()
    ensures InText(50) && InText(51)
  {
    assert AOffset(50) == 188 && |Word(50)| == 5;
    assert Spelled(188, Word(50), 5, false) by { hide AOffset; }
    assert AOffset(51) == 192 && |Word(51)| == 7;
    assert Spelled(192, Word(51), 5, false) && Spelled(192, Word(51), 7, false) by { hide AOffset; }
    hide AOffset, Word, Spelled;
  }

  lemma Texts52()
    ensures InText(52) && InText(53)
  {
    assert AOffset(52) == 199 && |Word(52)| == 6;
    assert Spelled(199, Word(52), 5, false) && Spelled(199, Word(52), 6, false) by { hide AOffset; }
    assert AOffset(53) == 204 && |Word(53)| == 6;
    assert Spelled(204, Word(53), 5, false) && Spelled(204, Word(53), 6, false) by { hide AOffset; }
    hide AOffset, Word, Spelled;
  }

  lemma Texts54()
    ensures InText(54) && InText(55)
  {
    assert AOffset(54) == 209 && |Word(54)| == 5;
    assert Spelled(209, Word(54), 5, false) by { hide AOffset; }
    assert AOffset(55) == 212 && |Word(55)| == 6;
    assert Spelled(212, Word(55), 5, false) && Spelled(212, Word(55), 6, false) by { hide AOffset; }
    hide AOffset, Word, Spelled;
  }

  lemma Texts56()
    ensures InText(56) && InText(57)
  {
    assert AOffset(56) == 218 && |Word(56)| == 5;
    assert Spelled(218, Word(56), 5, false) by { hide AOffset; }
    assert AOffset(57) == 221 && |Word(57)| == 5;
    assert Spelled(221, Word(57), 5, false) by { hide AOffset; }
    hide AOffset, Word, Spelled;
  }

  lemma Texts58()
    ensures InText(58)
  {
    assert AOffset(58) == 225 && |Word(58)| == 9;
    assert Spelled(225, Word(58), 5, false) && Spelled(225, Word(58), 9, false) by { hide AOffset; }
    hide AOffset, Word, Spelled;
  }

  lemma Texts59()
    ensures InText(59) && InText(60)
  {
    assert AOffset(59) == 234 && |Word(59)| == 7;
    assert Spelled(234, Word(59), 5, false) && Spelled(234, Word(59), 7, false) by { hide AOffset; }
    assert AOffset(60) == 240 && |Word(60)| == 7;
    assert Spelled(240, Word(60), 5, false) && Spelled(240, Word(60), 7, false) by { hide AOffset; }
    hide AOffset, Word, Spelled;
  }

  lemma Texts61()
    ensures InText(61) && InText(62) && InText(63) && InText(64)
  {
    assert AOffset(61) == 240 && |Word(61)| == 3;
    assert Spelled(240, Word(61), 3, false) by { hide AOffset; }
    assert AOffset(62) == 240 && |Word(62)| == 2;
    assert Spelled(240, Word(62), 2, false) by { hide AOffset; }
    assert AOffset(63) == 243 && |Word(63)| == 4;
    assert Spelled(243, Word(63), 4, false) by { hide AOffset; }
    assert AOffset(64) == 246 && |Word(64)| == 4;
    assert Spelled(246, Word(64), 4, false) by { hide AOffset; }
    hide AOffset, Word, Spelled;
  }

  lemma Texts65()
    ensures InText(65) && InText(66)
  {
    assert AOffset(65) == 250 && |Word(65)| == 7;
    assert Spelled(250, Word(65), 5, false) && Spelled(250, Word(65), 7, false) by { hide AOffset; }
    assert AOffset(66) == 251 && |Word(66)| == 3;
    assert Spelled(251, Word(66), 3, false) by { hide AOffset; }
    hide AOffset, Word, Spelled;
  }

  lemma Texts67()
    ensures InText(67) && InText(68)
  {
    assert AOffset(67) == 255 && |Word(67)| == 6;
    assert Spelled(255, Word(67), 5, false) && Spelled(255, Word(67), 6, false) by { hide AOffset; }
    assert AOffset(68) == 261 && |Word(68)| == 4;
    assert Spelled(261, Word(68), 4, false) by { hide AOffset; }
    hide AOffset, Word, Spelled;
  }

  lemma Texts69()
    ensures InText(69) && InText(70)
  {
    assert AOffset(69) == 265 && |Word(69)| == 7;
    assert Spelled(265, Word(69), 5, false) && Spelled(265, Word(69), 7, false) by { hide AOffset; }
    assert AOffset(70) == 272 && |Word(70)| == 6;
    assert Spelled(272, Word(70), 5, false) && Spelled(272, Word(70), 6, false) by { hide AOffset; }
    hide AOffset, Word, Spelled;
  }

  lemma Texts71()
    ensures InText(71)
  {
    assert AOffset(71) == 278 && |Word(71)| == 12;
    assert Spelled(278, Word(71), 4, true) && Spelled(278, Word(71), 7, true) && Spelled(278, Word(71), 10, true)
        && Spelled(278, Word(71), 12, true) by { hide AOffset; }
    hide AOffset, Word, Spelled;
  }

  lemma Texts72()
    ensures InText(72) && InText(73)
  {
    assert AOffset(72) == 290 && |Word(72)| == 6;
    assert Spelled(290, Word(72), 5, false) && Spelled(290, Word(72), 6, false) by { hide AOffset; }
    assert AOffset(73) == 296 && |Word(73)| == 9;
    assert Spelled(296, Word(73), 5, false) && Spelled(296, Word(73), 9, false) by { hide AOffset; }
    hide AOffset, Word, Spelled;
  }

  lemma Texts74()
    ensures InText(74) && InText(75) && InText(76)
  {
    assert AOffset(74) == 305 && |Word(74)| == 4;
    assert Spelled(305, Word(74), 4, false) by { hide AOffset; }
    assert AOffset(75) == 307 && |Word(75)| == 6;
    assert Spelled(307, Word(75), 5, false) && Spelled(307, Word(75), 6, false) by { hide AOffset; }
    assert AOffset(76) == 313 && |Word(76)| == 5;
    assert Spelled(313, Word(76), 5, false) by { hide AOffset; }
    hide AOffset, Word, Spelled;
  }

  lemma Texts77()
    ensures InText(77) && InText(78)
  {
    assert AOffset(77) == 318 && |Word(77)| == 4;
    assert Spelled(318, Word(77), 4, false) by { hide AOffset; }
    assert AOffset(78) == 320 && |Word(78)| == 7;
    assert Spelled(320, Word(78), 5, false) && Spelled(320, Word(78), 7, false) by { hide AOffset; }
    hide AOffset, Word, Spelled;
  }

  lemma Texts79()
    ensures InText(79) && InText(80)
  {
    assert AOffset(79) == 327 && |Word(79)| == 6;
    assert Spelled(327, Word(79), 5, false) && Spelled(327, Word(79), 6, false) by { hide AOffset; }
    assert AOffset(80) == 332 && |Word(80)| == 5;
    assert Spelled(332, Word(80), 5, false) by { hide AOffset; }
    hide AOffset, Word, Spelled;
  }

  lemma Texts81()
    ensures InText(81) && InText(82)
  {
    assert AOffset(81) == 337 && |Word(81)| == 6;
    assert Spelled(337, Word(81), 5, false) && Spelled(337, Word(81), 6, false) by { hide AOffset; }
    assert AOffset(82) == 343 && |Word(82)| == 7;
    assert Spelled(343, Word(82), 5, false) && Spelled(343, Word(82), 7, false) by { hide AOffset; }
    hide AOffset, Word, Spelled;
  }

  lemma Texts83()
    ensures InText(83) && InText(84) && InText(85)
  {
    assert AOffset(83) == 349 && |Word(83)| == 5;
    assert Spelled(349, Word(83), 5, false) by { hide AOffset; }
    assert AOffset(84) == 354 && |Word(84)| == 4;
    assert Spelled(354, Word(84), 4, false) by { hide AOffset; }
    assert AOffset(85) == 358 && |Word(85)| == 5;
    assert Spelled(358, Word(85), 5, false) by { hide AOffset; }
    hide AOffset, Word, Spelled;
  }

  lemma Texts86()
    ensures InText(86) && InText(87)
  {
    assert AOffset(86) == 361 && |Word(86)| == 6;
    assert Spelled(361, Word(86), 5, false) && Spelled(361, Word(86), 6, false) by { hide AOffset; }
    assert AOffset(87) == 367 && |Word(87)| == 5;
    assert Spelled(367, Word(87), 5, false) by { hide AOffset; }
    hide AOffset, Word, Spelled;
  }

  lemma Texts88()
    ensures InText(88) && InText(89)
  {
    assert AOffset(88) == 371 && |Word(88)| == 7;
    assert Spelled(371, Word(88), 5, false) && Spelled(371, Word(88), 7, false) by { hide AOffset; }
    assert AOffset(89) == 378 && |Word(89)| == 3;
    assert Spelled(378, Word(89), 3, false) by { hide AOffset; }
    hide AOffset, Word, Spelled;
  }

  lemma Texts90()
    ensures InText(90)
  {
    assert AOffset(90) == 380 && |Word(90)| == 7;
    assert Spelled(380, Word(90), 5, false) && Spelled(380, Word(90), 7, false) by { hide AOffset; }
    hide AOffset, Word, Spelled;
  }

  lemma Texts91()
    ensures InText(91) && InText(92)
  {
    assert AOffset(91) == 387 && |Word(91)| == 13;
    assert Spelled(387, Word(91), 4, false) && Spelled(387, Word(91), 7, false) && Spelled(387, Word(91), 10, false)
        && Spelled(387, Word(91), 13, false) by { hide AOffset; }
    assert AOffset(92) == 389 && |Word(92)| == 2;
    assert Spelled(389, Word(92), 2, false) by { hide AOffset; }
    hide AOffset, Word, Spelled;
  }

  lemma Texts93()
    ensures InText(93) && InText(94) && InText(95)
  {
    assert AOffset(93) == 391 && |Word(93)| == 2;
    assert Spelled(391, Word(93), 2, false) by { hide AOffset; }
    assert AOffset(94) == 400 && |Word(94)| == 4;
    assert Spelled(400, Word(94), 4, false) by { hide AOffset; }
    assert AOffset(95) == 404 && |Word(95)| == 6;
    assert Spelled(404, Word(95), 5, false) && Spelled(404, Word(95), 6, false) by { hide AOffset; }
    hide AOffset, Word, Spelled;
  }

  lemma Texts96()
    ensures InText(96) && InText(97)
  {
    assert AOffset(96) == 410 && |Word(96)| == 6;
    assert Spelled(410, Word(96), 5, false) && Spelled(410, Word(96), 6, false) by { hide AOffset; }
    assert AOffset(97) == 416 && |Word(97)| == 8;
    assert Spelled(416, Word(97), 5, false) && Spelled(416, Word(97), 8, false) by { hide AOffset; }
    hide AOffset, Word, Spelled;
  }

  lemma Texts98()
    ensures InText(98)
  {
    assert AOffset(98) == 424 && |Word(98)| == 5;
    assert Spelled(424, Word(98), 5, false) by { hide AOffset; }
    hide AOffset, Word, Spelled;
  }

  lemma Texts99()
    ensures InText(99)
  {
    assert AOffset(99) == 429 && |Word(99)| == 17;
    assert Spelled(429, Word(99), 4, true) && Spelled(429, Word(99), 7, true) && Spelled(429, Word(99), 10, true)
        && Spelled(429, Word(99), 13, true) && Spelled(429, Word(99), 15, true)
            && Spelled(429, Word(99), 17, true) by { hide AOffset; }
    hide AOffset, Word, Spelled;
  }

  lemma Texts100()
    ensures InText(100)
  {
    assert AOffset(100) == 429 && |Word(100)| == 12;
    assert Spelled(429, Word(100), 4, true) && Spelled(429, Word(100), 7, true) && Spelled(429, Word(100), 10, true)
        && Spelled(429, Word(100), 12, true) by { hide AOffset; }
    hide AOffset, Word, Spelled;
  }

  lemma Texts101()
    ensures InText(101) && InText(102)
  {
    assert AOffset(101) == 445 && |Word(101)| == 7;
    assert Spelled(445, Word(101), 5, false) && Spelled(445, Word(101), 7, false) by { hide AOffset; }
    assert AOffset(102) == 452 && |Word(102)| == 8;
    assert Spelled(452, Word(102), 5, false) && Spelled(452, Word(102), 8, false) by { hide AOffset; }
    hide AOffset, Word, Spelled;
  }

  lemma Texts103()
    ensures InText(103) && InText(104) && InText(105)
  {
    assert AOffset(103) == 459 && |Word(103)| == 8;
    assert Spelled(459, Word(103), 5, false) && Spelled(459, Word(103), 8, false) by { hide AOffset; }
    assert AOffset(104) == 460 && |Word(104)| == 2;
    assert Spelled(460, Word(104), 2, false) by { hide AOffset; }
    assert AOffset(105) == 467 && |Word(105)| == 4;
    assert Spelled(467, Word(105), 4, false) by { hide AOffset; }
    hide AOffset, Word, Spelled;
  }

  lemma Texts106()
    ensures InText(106) && InText(107) && InText(108)
  {
    assert AOffset(106) == 471 && |Word(106)| == 4;
    assert Spelled(471, Word(106), 4, false) by { hide AOffset; }
    assert AOffset(107) == 475 && |Word(107)| == 4;
    assert Spelled(475, Word(107), 4, false) by { hide AOffset; }
    assert AOffset(108) == 479 && |Word(108)| == 4;
    assert Spelled(479, Word(108), 4, false) by { hide AOffset; }
    hide AOffset, Word, Spelled;
  }

  lemma Texts109()
    ensures InText(109) && InText(110) && InText(111) && InText(112)
  {
    assert AOffset(109) == 483 && |Word(109)| == 4;
    assert Spelled(483, Word(109), 4, false) by { hide AOffset; }
    assert AOffset(110) == 486 && |Word(110)| == 2;
    assert Spelled(486, Word(110), 2, false) by { hide AOffset; }
    assert AOffset(111) == 488 && |Word(111)| == 2;
    assert Spelled(488, Word(111), 2, false) by { hide AOffset; }
    assert AOffset(112) == 490 && |Word(112)| == 6;
    assert Spelled(490, Word(112), 5, false) && Spelled(490, Word(112), 6, false) by { hide AOffset; }
    hide AOffset, Word, Spelled;
  }

  lemma Texts113()
    ensures InText(113) && InText(114)
  {
    assert AOffset(113) == 496 && |Word(113)| == 5;
    assert Spelled(496, Word(113), 5, false) by { hide AOffset; }
    assert AOffset(114) == 500 && |Word(114)| == 8;
    assert Spelled(500, Word(114), 5, false) && Spelled(500, Word(114), 8, false) by { hide AOffset; }
    hide AOffset, Word, Spelled;
  }

  lemma Texts115()
    ensures InText(115) && InText(116)
  {
    assert AOffset(115) == 508 && |Word(115)| == 5;
    assert Spelled(508, Word(115), 5, false) by { hide AOffset; }
    assert AOffset(116) == 513 && |Word(116)| == 8;
    assert Spelled(513, Word(116), 5, false) && Spelled(513, Word(116), 8, false) by { hide AOffset; }
    hide AOffset, Word, Spelled;
  }

  lemma Texts117()
    ensures InText(117) && InText(118) && InText(119)
  {
    assert AOffset(117) == 521 && |Word(117)| == 3;
    assert Spelled(521, Word(117), 3, false) by { hide AOffset; }
    assert AOffset(118) == 524 && |Word(118)| == 5;
    assert Spelled(524, Word(118), 5, false) by { hide AOffset; }
    assert AOffset(119) == 529 && |Word(119)| == 5;
    assert Spelled(529, Word(119), 5, false) by { hide AOffset; }
    hide AOffset, Word, Spelled;
  }

  lemma Texts120()
    ensures InText(120) && InText(121)
  {
    assert AOffset(120) == 534 && |Word(120)| == 6;
    assert Spelled(534, Word(120), 5, false) && Spelled(534, Word(120), 6, false) by { hide AOffset; }
    assert AOffset(121) == 540 && |Word(121)| == 4;
    assert Spelled(540, Word(121), 4, false) by { hide AOffset; }
    hide AOffset, Word, Spelled;
  }

  lemma Texts122()
    ensures InText(122) && InText(123)
  {
    assert AOffset(122) == 544 && |Word(122)| == 9;
    assert Spelled(544, Word(122), 5, false) && Spelled(544, Word(122), 9, false) by { hide AOffset; }
    assert AOffset(123) == 549 && |Word(123)| == 3;
    assert Spelled(549, Word(123), 3, false) by { hide AOffset; }
    hide AOffset, Word, Spelled;
  }

  lemma Chains0()
    ensures Found(0) && Found(1)
  {
    Widths();
    Numbers0();
    hide Width, Number;
    assert |Word(0)| == 7 && Mix(Word(0)) == 167 && Hash(Word(0)) == 40 && Head(Word(0)) == 68;
    assert |Word(68)| != 7 && ANext(68) == 1;
    assert |Word(1)| == 7 && Mix(Word(1)) == 143 && Hash(Word(1)) == 16 && Head(Word(1)) == 14;
    assert Word(14)[2] != Word(1)[2] && ANext(14) == 2;
    hide Head, Word, ANext;
    assert OnChain(Word(0), 0, 0) && OnChain(Word(0), 68, 0);
    assert OnChain(Word(1), 1, 1) && OnChain(Word(1), 14, 1);
  }

  lemma Chains2()
    ensures Found(2) && Found(3)
  {
    Widths();
    Numbers0();
    hide Width, Number;
    assert |Word(2)| == 5 && Mix(Word(2)) == 201 && Hash(Word(2)) == 74 && Head(Word(2)) == 54;
    assert Word(54)[0] != Word(2)[0] && ANext(54) == 3;
    assert |Word(3)| == 4 && Mix(Word(3)) == 189 && Hash(Word(3)) == 62 && Head(Word(3)) == 4;
    assert |Word(4)| != 4 && ANext(4) == 4;
    hide Head, Word, ANext;
    assert OnChain(Word(2), 2, 2) && OnChain(Word(2), 54, 2);
    assert OnChain(Word(3), 3, 3) && OnChain(Word(3), 4, 3);
  }

  lemma Chains4()
    ensures Found(4) && Found(5) && Found(6)
  {
    Widths();
    Numbers0();
    hide Width, Number;
    assert |Word(4)| == 6 && Mix(Word(4)) == 189 && Hash(Word(4)) == 62 && Head(Word(4)) == 4;
    assert |Word(5)| == 4 && Mix(Word(5)) == 168 && Hash(Word(5)) == 41 && Head(Word(5)) == 5;
    assert |Word(6)| == 5 && Mix(Word(6)) == 200 && Hash(Word(6)) == 73 && Head(Word(6)) == 27;
    assert |Word(27)| != 5 && ANext(27) == 7;
    hide Head, Word, ANext;
    assert OnChain(Word(6), 6, 6) && OnChain(Word(6), 27, 6);
  }

  lemma Chains7()
    ensures Found(7) && Found(8)
  {
    Widths();
    Numbers0();
    hide Width, Number;
    assert |Word(7)| == 3 && Mix(Word(7)) == 196 && Hash(Word(7)) == 69 && Head(Word(7)) == 105;
    assert |Word(105)| != 3 && ANext(105) == 104;
    assert |Word(103)| != 3 && ANext(103) == 8;
    assert |Word(8)| == 6 && Mix(Word(8)) == 161 && Hash(Word(8)) == 34 && Head(Word(8)) == 8;
    hide Head, Word, ANext;
    assert OnChain(Word(7), 7, 7) && OnChain(Word(7), 103, 7) && OnChain(Word(7), 105, 7);
  }

  lemma Chains9()
    ensures Found(9) && Found(10)
  {
    Widths();
    Numbers0();
    hide Width, Number;
    assert |Word(9)| == 7 && Mix(Word(9)) == 213 && Hash(Word(9)) == 86 && Head(Word(9)) == 91;
    assert |Word(91)| != 7 && ANext(91) == 10;
    assert |Word(10)| == 3 && Mix(Word(10)) == 205 && Hash(Word(10)) == 78 && Head(Word(10)) == 99;
    assert |Word(99)| != 3 && ANext(99) == 11;
    hide Head, Word, ANext;
    assert OnChain(Word(9), 9, 9) && OnChain(Word(9), 91, 9);
    assert OnChain(Word(10), 10, 10) && OnChain(Word(10), 99, 10);
  }

  lemma Chains11()
    ensures Found(11) && Found(12) && Found(13)
  {
    Widths();
    Numbers0();
    hide Width, Number;
    assert |Word(11)| == 6 && Mix(Word(11)) == 141 && Hash(Word(11)) == 14 && Head(Word(11)) == 11;
    assert |Word(12)| == 6 && Mix(Word(12)) == 158 && Hash(Word(12)) == 31 && Head(Word(12)) == 21;
    assert |Word(21)| != 6 && ANext(21) == 13;
    assert |Word(13)| == 7 && Mix(Word(13)) == 217 && Hash(Word(13)) == 90 && Head(Word(13)) == 13;
    hide Head, Word, ANext;
    assert OnChain(Word(12), 12, 12) && OnChain(Word(12), 21, 12);
  }

  lemma Chains14()
    ensures Found(14) && Found(15) && Found(16)
  {
    Widths();
    Numbers0();
    hide Width, Number;
    assert |Word(14)| == 7 && Mix(Word(14)) == 143 && Hash(Word(14)) == 16 && Head(Word(14)) == 14;
    assert |Word(15)| == 3 && Mix(Word(15)) == 171 && Hash(Word(15)) == 44 && Head(Word(15)) == 89;
    assert Word(89)[1] != Word(15)[1] && ANext(89) == 16;
    assert |Word(16)| == 8 && Mix(Word(16)) == 183 && Hash(Word(16)) == 56 && Head(Word(16)) == 16;
    hide Head, Word, ANext;
    assert OnChain(Word(15), 15, 15) && OnChain(Word(15), 89, 15);
  }

  lemma Chains17()
    ensures Found(17) && Found(18) && Found(19)
  {
    Widths();
    Numbers0();
    hide Width, Number;
    assert |Word(17)| == 2 && Mix(Word(17)) == 223 && Hash(Word(17)) == 96 && Head(Word(17)) == 17;
    assert |Word(18)| == 6 && Mix(Word(18)) == 150 && Hash(Word(18)) == 23 && Head(Word(18)) == 18;
    assert |Word(19)| == 5 && Mix(Word(19)) == 250 && Hash(Word(19)) == 123 && Head(Word(19)) == 19;
    hide Head, Word, ANext;
  }

  lemma Chains20()
    ensures Found(20) && Found(21) && Found(22)
  {
    Widths();
    Numbers0();
    hide Width, Number;
    assert |Word(20)| == 4 && Mix(Word(20)) == 232 && Hash(Word(20)) == 105 && Head(Word(20)) == 45;
    assert |Word(45)| != 4 && ANext(45) == 21;
    assert |Word(21)| == 4 && Mix(Word(21)) == 158 && Hash(Word(21)) == 31 && Head(Word(21)) == 21;
    assert |Word(22)| == 3 && Mix(Word(22)) == 187 && Hash(Word(22)) == 60 && Head(Word(22)) == 22;
    hide Head, Word, ANext;
    assert OnChain(Word(20), 20, 20) && OnChain(Word(20), 45, 20);
  }

  lemma Chains23()
    ensures Found(23) && Found(24) && Found(25)
  {
    Widths();
    Numbers0();
    hide Width, Number;
    assert |Word(23)| == 10 && Mix(Word(23)) == 181 && Hash(Word(23)) == 54 && Head(Word(23)) == 23;
    assert |Word(24)| == 4 && Mix(Word(24)) == 191 && Hash(Word(24)) == 64 && Head(Word(24)) == 24;
    assert |Word(25)| == 6 && Mix(Word(25)) == 206 && Hash(Word(25)) == 79 && Head(Word(25)) == 25;
    hide Head, Word, ANext;
  }

  lemma Chains26()
    ensures Found(26) && Found(27) && Found(28)
  {
    Widths();
    Numbers0();
    hide Width, Number;
    assert |Word(26)| == 11 && Mix(Word(26)) == 145 && Hash(Word(26)) == 18 && Head(Word(26)) == 115;
    assert |Word(115)| != 11 && ANext(115) == 27;
    assert |Word(27)| == 6 && Mix(Word(27)) == 200 && Hash(Word(27)) == 73 && Head(Word(27)) == 27;
    assert |Word(28)| == 2 && Mix(Word(28)) == 244 && Hash(Word(28)) == 117 && Head(Word(28)) == 28;
    hide Head, Word, ANext;
    assert OnChain(Word(26), 26, 26) && OnChain(Word(26), 115, 26);
  }

  lemma Chains29()
    ensures Found(29) && Found(30)
  {
    Widths();
    Numbers0();
    hide Width, Number;
    assert |Word(29)| == 7 && Mix(Word(29)) == 251 && Hash(Word(29)) == 124 && Head(Word(29)) == 60;
    assert Word(60)[1] != Word(29)[1] && ANext(60) == 30;
    assert |Word(30)| == 5 && Mix(Word(30)) == 215 && Hash(Word(30)) == 88 && Head(Word(30)) == 87;
    assert Word(87)[1] != Word(30)[1] && ANext(87) == 31;
    hide Head, Word, ANext;
    assert OnChain(Word(29), 29, 29) && OnChain(Word(29), 60, 29);
    assert OnChain(Word(30), 30, 30) && OnChain(Word(30), 87, 30);
  }

  lemma Chains31()
    ensures Found(31) && Found(32)
  {
    Widths();
    Numbers0();
    hide Width, Number;
    assert |Word(31)| == 5 && Mix(Word(31)) == 226 && Hash(Word(31)) == 99 && Head(Word(31)) == 31;
    assert |Word(32)| == 9 && Mix(Word(32)) == 178 && Hash(Word(32)) == 51 && Head(Word(32)) == 43;
    assert Word(43)[0] != Word(32)[0] && ANext(43) == 33;
    hide Head, Word, ANext;
    assert OnChain(Word(32), 32, 32) && OnChain(Word(32), 43, 32);
  }

  lemma Chains33()
    ensures Found(33) && Found(34)
  {
    Widths();
    Numbers0();
    hide Width, Number;
    assert |Word(33)| == 6 && Mix(Word(33)) == 203 && Hash(Word(33)) == 76 && Head(Word(33)) == 90;
    assert |Word(90)| != 6 && ANext(90) == 34;
    assert |Word(34)| == 9 && Mix(Word(34)) == 153 && Hash(Word(34)) == 26 && Head(Word(34)) == 120;
    assert |Word(120)| != 9 && ANext(120) == 35;
    hide Head, Word, ANext;
    assert OnChain(Word(33), 33, 33) && OnChain(Word(33), 90, 33);
    assert OnChain(Word(34), 34, 34) && OnChain(Word(34), 120, 34);
  }

  lemma Chains35()
    ensures Found(35) && Found(36)
  {
    Widths();
    Numbers0();
    hide Width, Number;
    assert |Word(35)| == 9 && Mix(Word(35)) == 241 && Hash(Word(35)) == 114 && Head(Word(35)) == 35;
    assert |Word(36)| == 7 && Mix(Word(36)) == 129 && Hash(Word(36)) == 2 && Head(Word(36)) == 116;
    assert |Word(116)| != 7 && ANext(116) == 37;
    hide Head, Word, ANext;
    assert OnChain(Word(36), 36, 36) && OnChain(Word(36), 116, 36);
  }

  lemma Chains37()
    ensures Found(37) && Found(38)
  {
    Widths();
    Numbers0();
    hide Width, Number;
    assert |Word(37)| == 10 && Mix(Word(37)) == 155 && Hash(Word(37)) == 28 && Head(Word(37)) == 118;
    assert |Word(118)| != 10 && ANext(118) == 83;
    assert |Word(82)| != 10 && ANext(82) == 65;
    assert |Word(64)| != 10 && ANext(64) == 38;
    assert |Word(38)| == 10 && Mix(Word(38)) == 218 && Hash(Word(38)) == 91 && Head(Word(38)) == 38;
    hide Head, Word, ANext;
    assert OnChain(Word(37), 37, 37) && OnChain(Word(37), 64, 37) && OnChain(Word(37), 82, 37)
        && OnChain(Word(37), 118, 37);
  }

  lemma Chains39()
    ensures Found(39) && Found(40)
  {
    Widths();
    Numbers0();
    hide Width, Number;
    assert |Word(39)| == 4 && Mix(Word(39)) == 237 && Hash(Word(39)) == 110 && Head(Word(39)) == 39;
    assert |Word(40)| == 6 && Mix(Word(40)) == 230 && Hash(Word(40)) == 103 && Head(Word(40)) == 112;
    assert Word(112)[0] != Word(40)[0] && ANext(112) == 75;
    assert |Word(74)| != 6 && ANext(74) == 41;
    hide Head, Word, ANext;
    assert OnChain(Word(40), 40, 40) && OnChain(Word(40), 74, 40) && OnChain(Word(40), 112, 40);
  }

  lemma Chains41()
    ensures Found(41) && Found(42) && Found(43)
  {
    Widths();
    Numbers0();
    hide Width, Number;
    assert |Word(41)| == 2 && Mix(Word(41)) == 140 && Hash(Word(41)) == 13 && Head(Word(41)) == 41;
    assert |Word(42)| == 3 && Mix(Word(42)) == 147 && Hash(Word(42)) == 20 && Head(Word(42)) == 53;
    assert |Word(53)| != 3 && ANext(53) == 43;
    assert |Word(43)| == 9 && Mix(Word(43)) == 178 && Hash(Word(43)) == 51 && Head(Word(43)) == 43;
    hide Head, Word, ANext;
    assert OnChain(Word(42), 42, 42) && OnChain(Word(42), 53, 42);
  }

  lemma Chains44()
    ensures Found(44) && Found(45) && Found(46)
  {
    Widths();
    Numbers0();
    hide Width, Number;
    assert |Word(44)| == 4 && Mix(Word(44)) == 132 && Hash(Word(44)) == 5 && Head(Word(44)) == 44;
    assert |Word(45)| == 2 && Mix(Word(45)) == 232 && Hash(Word(45)) == 105 && Head(Word(45)) == 45;
    assert |Word(46)| == 6 && Mix(Word(46)) == 253 && Hash(Word(46)) == 126 && Head(Word(46)) == 55;
    assert Word(55)[1] != Word(46)[1] && ANext(55) == 47;
    hide Head, Word, ANext;
    assert OnChain(Word(46), 46, 46) && OnChain(Word(46), 55, 46);
  }

  lemma Chains47()
    ensures Found(47) && Found(48)
  {
    Widths();
    Numbers0();
    hide Width, Number;
    assert |Word(47)| == 5 && Mix(Word(47)) == 170 && Hash(Word(47)) == 43 && Head(Word(47)) == 47;
    assert |Word(48)| == 7 && Mix(Word(48)) == 135 && Hash(Word(48)) == 8 && Head(Word(48)) == 81;
    assert |Word(81)| != 7 && ANext(81) == 49;
    hide Head, Word, ANext;
    assert OnChain(Word(48), 48, 48) && OnChain(Word(48), 81, 48);
  }

  lemma Chains49()
    ensures Found(49) && Found(50)
  {
    Widths();
    Numbers0();
    hide Width, Number;
    assert |Word(49)| == 4 && Mix(Word(49)) == 224 && Hash(Word(49)) == 97 && Head(Word(49)) == 88;
    assert |Word(88)| != 4 && ANext(88) == 52;
    assert |Word(51)| != 4 && ANext(51) == 50;
    assert |Word(50)| == 5 && Mix(Word(50)) == 239 && Hash(Word(50)) == 112 && Head(Word(50)) == 113;
    assert Word(113)[1] != Word(50)[1] && ANext(113) == 51;
    hide Head, Word, ANext;
    assert OnChain(Word(49), 49, 49) && OnChain(Word(49), 51, 49) && OnChain(Word(49), 88, 49);
    assert OnChain(Word(50), 50, 50) && OnChain(Word(50), 113, 50);
  }

  lemma Chains51()
    ensures Found(51) && Found(52) && Found(53)
  {
    Widths();
    Numbers0();
    hide Width, Number;
    assert |Word(51)| == 7 && Mix(Word(51)) == 224 && Hash(Word(51)) == 97 && Head(Word(51)) == 88;
    assert Word(88)[2] != Word(51)[2] && ANext(88) == 52;
    assert |Word(52)| == 6 && Mix(Word(52)) == 186 && Hash(Word(52)) == 59 && Head(Word(52)) == 52;
    assert |Word(53)| == 6 && Mix(Word(53)) == 147 && Hash(Word(53)) == 20 && Head(Word(53)) == 53;
    hide Head, Word, ANext;
    assert OnChain(Word(51), 51, 51) && OnChain(Word(51), 88, 51);
  }

  lemma Chains54()
    ensures Found(54) && Found(55) && Found(56)
  {
    Widths();
    Numbers0();
    hide Width, Number;
    assert |Word(54)| == 5 && Mix(Word(54)) == 201 && Hash(Word(54)) == 74 && Head(Word(54)) == 54;
    assert |Word(55)| == 6 && Mix(Word(55)) == 253 && Hash(Word(55)) == 126 && Head(Word(55)) == 55;
    assert |Word(56)| == 5 && Mix(Word(56)) == 199 && Hash(Word(56)) == 72 && Head(Word(56)) == 56;
    hide Head, Word, ANext;
  }

  lemma Chains57()
    ensures Found(57) && Found(58) && Found(59)
  {
    Widths();
    Numbers0();
    hide Width, Number;
    assert |Word(57)| == 5 && Mix(Word(57)) == 247 && Hash(Word(57)) == 120 && Head(Word(57)) == 62;
    assert |Word(62)| != 5 && ANext(62) == 58;
    assert |Word(58)| == 9 && Mix(Word(58)) == 238 && Hash(Word(58)) == 111 && Head(Word(58)) == 58;
    assert |Word(59)| == 7 && Mix(Word(59)) == 197 && Hash(Word(59)) == 70 && Head(Word(59)) == 59;
    hide Head, Word, ANext;
    assert OnChain(Word(57), 57, 57) && OnChain(Word(57), 62, 57);
  }

  lemma Chains60()
    ensures Found(60) && Found(61) && Found(62)
  {
    Widths();
    Numbers0();
    hide Width, Number;
    assert |Word(60)| == 7 && Mix(Word(60)) == 251 && Hash(Word(60)) == 124 && Head(Word(60)) == 60;
    assert |Word(61)| == 3 && Mix(Word(61)) == 231 && Hash(Word(61)) == 104 && Head(Word(61)) == 61;
    assert |Word(62)| == 2 && Mix(Word(62)) == 247 && Hash(Word(62)) == 120 && Head(Word(62)) == 62;
    hide Head, Word, ANext;
  }

  lemma Chains63()
    ensures Found(63) && Found(64)
  {
    Widths();
    Numbers63();
    hide Width, Number;
    assert |Word(63)| == 4 && Mix(Word(63)) == 248 && Hash(Word(63)) == 121 && Head(Word(63)) == 63;
    assert |Word(64)| == 4 && Mix(Word(64)) == 155 && Hash(Word(64)) == 28 && Head(Word(64)) == 118;
    assert |Word(118)| != 4 && ANext(118) == 83;
    assert |Word(82)| != 4 && ANext(82) == 65;
    hide Head, Word, ANext;
    assert OnChain(Word(64), 64, 64) && OnChain(Word(64), 82, 64) && OnChain(Word(64), 118, 64);
  }

  lemma Chains65()
    ensures Found(65) && Found(66)
  {
    Widths();
    Numbers63();
    hide Width, Number;
    assert |Word(65)| == 7 && Mix(Word(65)) == 164 && Hash(Word(65)) == 37 && Head(Word(65)) == 69;
    assert Word(69)[1] != Word(65)[1] && ANext(69) == 66;
    assert |Word(66)| == 3 && Mix(Word(66)) == 174 && Hash(Word(66)) == 47 && Head(Word(66)) == 117;
    assert Word(117)[0] != Word(66)[0] && ANext(117) == 73;
    assert |Word(72)| != 3 && ANext(72) == 67;
    hide Head, Word, ANext;
    assert OnChain(Word(65), 65, 65) && OnChain(Word(65), 69, 65);
    assert OnChain(Word(66), 66, 66) && OnChain(Word(66), 72, 66) && OnChain(Word(66), 117, 66);
  }

  lemma Chains67()
    ensures Found(67) && Found(68) && Found(69)
  {
    Widths();
    Numbers63();
    hide Width, Number;
    assert |Word(67)| == 6 && Mix(Word(67)) == 185 && Hash(Word(67)) == 58 && Head(Word(67)) == 121;
    assert |Word(121)| != 6 && ANext(121) == 68;
    assert |Word(68)| == 4 && Mix(Word(68)) == 167 && Hash(Word(68)) == 40 && Head(Word(68)) == 68;
    assert |Word(69)| == 7 && Mix(Word(69)) == 164 && Hash(Word(69)) == 37 && Head(Word(69)) == 69;
    hide Head, Word, ANext;
    assert OnChain(Word(67), 67, 67) && OnChain(Word(67), 121, 67);
  }

  lemma Chains70()
    ensures Found(70) && Found(71)
  {
    Widths();
    Numbers63();
    hide Width, Number;
    assert |Word(70)| == 6 && Mix(Word(70)) == 165 && Hash(Word(70)) == 38 && Head(Word(70)) == 70;
    assert |Word(71)| == 12 && Mix(Word(71)) == 175 && Hash(Word(71)) == 48 && Head(Word(71)) == 100;
    assert Word(100)[8] != Word(71)[8] && ANext(100) == 72;
    hide Head, Word, ANext;
    assert OnChain(Word(71), 71, 71) && OnChain(Word(71), 100, 71);
  }

  lemma Chains72()
    ensures Found(72) && Found(73)
  {
    Widths();
    Numbers63();
    hide Width, Number;
    assert |Word(72)| == 6 && Mix(Word(72)) == 174 && Hash(Word(72)) == 47 && Head(Word(72)) == 117;
    assert |Word(117)| != 6 && ANext(117) == 73;
    assert |Word(73)| == 9 && Mix(Word(73)) == 130 && Hash(Word(73)) == 3 && Head(Word(73)) == 73;
    hide Head, Word, ANext;
    assert OnChain(Word(72), 72, 72) && OnChain(Word(72), 117, 72);
  }

  lemma Chains74()
    ensures Found(74) && Found(75) && Found(76)
  {
    Widths();
    Numbers63();
    hide Width, Number;
    assert |Word(74)| == 4 && Mix(Word(74)) == 230 && Hash(Word(74)) == 103 && Head(Word(74)) == 112;
    assert |Word(112)| != 4 && ANext(112) == 75;
    assert |Word(75)| == 6 && Mix(Word(75)) == 254 && Hash(Word(75)) == 0 && Head(Word(75)) == 75;
    assert |Word(76)| == 5 && Mix(Word(76)) == 137 && Hash(Word(76)) == 10 && Head(Word(76)) == 76;
    hide Head, Word, ANext;
    assert OnChain(Word(74), 74, 74) && OnChain(Word(74), 112, 74);
  }

  lemma Chains77()
    ensures Found(77) && Found(78) && Found(79)
  {
    Widths();
    Numbers63();
    hide Width, Number;
    assert |Word(77)| == 4 && Mix(Word(77)) == 142 && Hash(Word(77)) == 15 && Head(Word(77)) == 77;
    assert |Word(78)| == 7 && Mix(Word(78)) == 172 && Hash(Word(78)) == 45 && Head(Word(78)) == 101;
    assert Word(101)[0] != Word(78)[0] && ANext(101) == 79;
    assert |Word(79)| == 6 && Mix(Word(79)) == 229 && Hash(Word(79)) == 102 && Head(Word(79)) == 79;
    hide Head, Word, ANext;
    assert OnChain(Word(78), 78, 78) && OnChain(Word(78), 101, 78);
  }

  lemma Chains80()
    ensures Found(80) && Found(81) && Found(82)
  {
    Widths();
    Numbers63();
    hide Width, Number;
    assert |Word(80)| == 5 && Mix(Word(80)) == 221 && Hash(Word(80)) == 94 && Head(Word(80)) == 80;
    assert |Word(81)| == 6 && Mix(Word(81)) == 135 && Hash(Word(81)) == 8 && Head(Word(81)) == 81;
    assert |Word(82)| == 7 && Mix(Word(82)) == 155 && Hash(Word(82)) == 28 && Head(Word(82)) == 118;
    assert |Word(118)| != 7 && ANext(118) == 83;
    hide Head, Word, ANext;
    assert OnChain(Word(82), 82, 82) && OnChain(Word(82), 118, 82);
  }

  lemma Chains83()
    ensures Found(83) && Found(84) && Found(85)
  {
    Widths();
    Numbers63();
    hide Width, Number;
    assert |Word(83)| == 5 && Mix(Word(83)) == 233 && Hash(Word(83)) == 106 && Head(Word(83)) == 83;
    assert |Word(84)| == 4 && Mix(Word(84)) == 146 && Hash(Word(84)) == 19 && Head(Word(84)) == 84;
    assert |Word(85)| == 5 && Mix(Word(85)) == 246 && Hash(Word(85)) == 119 && Head(Word(85)) == 85;
    hide Head, Word, ANext;
  }

  lemma Chains86()
    ensures Found(86) && Found(87) && Found(88)
  {
    Widths();
    Numbers63();
    hide Width, Number;
    assert |Word(86)| == 6 && Mix(Word(86)) == 225 && Hash(Word(86)) == 98 && Head(Word(86)) == 110;
    assert |Word(110)| != 6 && ANext(110) == 87;
    assert |Word(87)| == 5 && Mix(Word(87)) == 215 && Hash(Word(87)) == 88 && Head(Word(87)) == 87;
    assert |Word(88)| == 7 && Mix(Word(88)) == 224 && Hash(Word(88)) == 97 && Head(Word(88)) == 88;
    hide Head, Word, ANext;
    assert OnChain(Word(86), 86, 86) && OnChain(Word(86), 110, 86);
  }

  lemma Chains89()
    ensures Found(89) && Found(90) && Found(91)
  {
    Widths();
    Numbers63();
    hide Width, Number;
    assert |Word(89)| == 3 && Mix(Word(89)) == 171 && Hash(Word(89)) == 44 && Head(Word(89)) == 89;
    assert |Word(90)| == 7 && Mix(Word(90)) == 203 && Hash(Word(90)) == 76 && Head(Word(90)) == 90;
    assert |Word(91)| == 13 && Mix(Word(91)) == 213 && Hash(Word(91)) == 86 && Head(Word(91)) == 91;
    hide Head, Word, ANext;
  }

  lemma Chains92()
    ensures Found(92) && Found(93) && Found(94) && Found(95)
  {
    Widths();
    Numbers63();
    hide Width, Number;
    assert |Word(92)| == 2 && Mix(Word(92)) == 159 && Hash(Word(92)) == 32 && Head(Word(92)) == 92;
    assert |Word(93)| == 2 && Mix(Word(93)) == 236 && Hash(Word(93)) == 109 && Head(Word(93)) == 93;
    assert |Word(94)| == 4 && Mix(Word(94)) == 212 && Hash(Word(94)) == 85 && Head(Word(94)) == 94;
    assert |Word(95)| == 6 && Mix(Word(95)) == 192 && Hash(Word(95)) == 65 && Head(Word(95)) == 95;
    hide Head, Word, ANext;
  }

  lemma Chains96()
    ensures Found(96) && Found(97)
  {
    Widths();
    Numbers63();
    hide Width, Number;
    assert |Word(96)| == 6 && Mix(Word(96)) == 214 && Hash(Word(96)) == 87 && Head(Word(96)) == 96;
    assert |Word(97)| == 8 && Mix(Word(97)) == 216 && Hash(Word(97)) == 89 && Head(Word(97)) == 108;
    assert |Word(108)| != 8 && ANext(108) == 107;
    assert |Word(106)| != 8 && ANext(106) == 98;
    hide Head, Word, ANext;
    assert OnChain(Word(97), 97, 97) && OnChain(Word(97), 106, 97) && OnChain(Word(97), 108, 97);
  }

  lemma Chains98()
    ensures Found(98) && Found(99)
  {
    Widths();
    Numbers63();
    hide Width, Number;
    assert |Word(98)| == 5 && Mix(Word(98)) == 208 && Hash(Word(98)) == 81 && Head(Word(98)) == 98;
    assert |Word(99)| == 17 && Mix(Word(99)) == 205 && Hash(Word(99)) == 78 && Head(Word(99)) == 99;
    hide Head, Word, ANext;
  }

  lemma Chains100()
    ensures Found(100) && Found(101) && Found(102)
  {
    Widths();
    Numbers63();
    hide Width, Number;
    assert |Word(100)| == 12 && Mix(Word(100)) == 175 && Hash(Word(100)) == 48 && Head(Word(100)) == 100;
    assert |Word(101)| == 7 && Mix(Word(101)) == 172 && Hash(Word(101)) == 45 && Head(Word(101)) == 101;
    assert |Word(102)| == 8 && Mix(Word(102)) == 180 && Hash(Word(102)) == 53 && Head(Word(102)) == 102;
    hide Head, Word, ANext;
  }

  lemma Chains103()
    ensures Found(103) && Found(104) && Found(105)
  {
    Widths();
    Numbers63();
    hide Width, Number;
    assert |Word(103)| == 8 && Mix(Word(103)) == 196 && Hash(Word(103)) == 69 && Head(Word(103)) == 105;
    assert |Word(105)| != 8 && ANext(105) == 104;
    assert |Word(104)| == 2 && Mix(Word(104)) == 255 && Hash(Word(104)) == 1 && Head(Word(104)) == 104;
    assert |Word(105)| == 4 && Mix(Word(105)) == 196 && Hash(Word(105)) == 69 && Head(Word(105)) == 105;
    hide Head, Word, ANext;
    assert OnChain(Word(103), 103, 103) && OnChain(Word(103), 105, 103);
  }

  lemma Chains106()
    ensures Found(106) && Found(107) && Found(108)
  {
    Widths();
    Numbers63();
    hide Width, Number;
    assert |Word(106)| == 4 && Mix(Word(106)) == 216 && Hash(Word(106)) == 89 && Head(Word(106)) == 108;
    assert Word(108)[1] != Word(106)[1] && ANext(108) == 107;
    assert |Word(107)| == 4 && Mix(Word(107)) == 219 && Hash(Word(107)) == 92 && Head(Word(107)) == 107;
    assert |Word(108)| == 4 && Mix(Word(108)) == 216 && Hash(Word(108)) == 89 && Head(Word(108)) == 108;
    hide Head, Word, ANext;
    assert OnChain(Word(106), 106, 106) && OnChain(Word(106), 108, 106);
  }

  lemma Chains109()
    ensures Found(109) && Found(110) && Found(111) && Found(112)
  {
    Widths();
    Numbers63();
    hide Width, Number;
    assert |Word(109)| == 4 && Mix(Word(109)) == 190 && Hash(Word(109)) == 63 && Head(Word(109)) == 109;
    assert |Word(110)| == 2 && Mix(Word(110)) == 225 && Hash(Word(110)) == 98 && Head(Word(110)) == 110;
    assert |Word(111)| == 2 && Mix(Word(111)) == 148 && Hash(Word(111)) == 21 && Head(Word(111)) == 111;
    assert |Word(112)| == 6 && Mix(Word(112)) == 230 && Hash(Word(112)) == 103 && Head(Word(112)) == 112;
    hide Head, Word, ANext;
  }

  lemma Chains113()
    ensures Found(113) && Found(114) && Found(115) && Found(116)
  {
    Widths();
    Numbers63();
    hide Width, Number;
    assert |Word(113)| == 5 && Mix(Word(113)) == 239 && Hash(Word(113)) == 112 && Head(Word(113)) == 113;
    assert |Word(114)| == 8 && Mix(Word(114)) == 156 && Hash(Word(114)) == 29 && Head(Word(114)) == 114;
    assert |Word(115)| == 5 && Mix(Word(115)) == 145 && Hash(Word(115)) == 18 && Head(Word(115)) == 115;
    assert |Word(116)| == 8 && Mix(Word(116)) == 129 && Hash(Word(116)) == 2 && Head(Word(116)) == 116;
    hide Head, Word, ANext;
  }

  lemma Chains117()
    ensures Found(117) && Found(118) && Found(119) && Found(120)
  {
    Widths();
    Numbers63();
    hide Width, Number;
    assert |Word(117)| == 3 && Mix(Word(117)) == 174 && Hash(Word(117)) == 47 && Head(Word(117)) == 117;
    assert |Word(118)| == 5 && Mix(Word(118)) == 155 && Hash(Word(118)) == 28 && Head(Word(118)) == 118;
    assert |Word(119)| == 5 && Mix(Word(119)) == 228 && Hash(Word(119)) == 101 && Head(Word(119)) == 119;
    assert |Word(120)| == 6 && Mix(Word(120)) == 153 && Hash(Word(120)) == 26 && Head(Word(120)) == 120;
    hide Head, Word, ANext;
  }

  lemma Chains121()
    ensures Found(121) && Found(122) && Found(123)
  {
    Widths();
    Numbers63();
    hide Width, Number;
    assert |Word(121)| == 4 && Mix(Word(121)) == 185 && Hash(Word(121)) == 58 && Head(Word(121)) == 121;
    assert |Word(122)| == 9 && Mix(Word(122)) == 198 && Hash(Word(122)) == 71 && Head(Word(122)) == 122;
    assert |Word(123)| == 3 && Mix(Word(123)) == 195 && Hash(Word(123)) == 68 && Head(Word(123)) == 123;
    hide Head, Word, ANext;
  }

  lemma AllShaped(i: nat)
    requires i < 124
    ensures Shaped(i)
  {
    hide Shaped;
    if i < 8 { Shapes0(); }
    else if i < 16 { Shapes8(); }
    else if i < 24 { Shapes16(); }
    else if i < 32 { Shapes24(); }
    else if i < 40 { Shapes32(); }
    else if i < 48 { Shapes40(); }
    else if i < 56 { Shapes48(); }
    else if i < 64 { Shapes56(); }
    else if i < 72 { Shapes64(); }
    else if i < 80 { Shapes72(); }
    else if i < 88 { Shapes80(); }
    else if i < 96 { Shapes88(); }
    else if i < 104 { Shapes96(); }
    else if i < 112 { Shapes104(); }
    else if i < 120 { Shapes112(); }
    else if i < 124 { Shapes120(); }
  }

  lemma AllInText(i: nat)
    requires i < 124
    ensures InText(i)
  {
    hide InText;
    if i < 2 { Texts0(); }
    else if i < 5 { Texts2(); }
    else if i < 8 { Texts5(); }
    else if i < 10 { Texts8(); }
    else if i < 13 { Texts10(); }
    else if i < 15 { Texts13(); }
    else if i < 18 { Texts15(); }
    else if i < 21 { Texts18(); }
    else if i < 23 { Texts21(); }
    else if i < 25 { Texts23(); }
    else if i < 26 { Texts25(); }
    else if i < 27 { Texts26(); }
    else if i < 30 { Texts27(); }
    else if i < 32 { Texts30(); }
    else if i < 34 { Texts32(); }
    else if i < 35 { Texts34(); }
    else if i < 36 { Texts35(); }
    else if i < 37 { Texts36(); }
    else if i < 38 { Texts37(); }
    else if i < 40 { Texts38(); }
    else if i < 43 { Texts40(); }
    else if i < 44 { Texts43(); }
    else if i < 46 { Texts44(); }
    else if i < 48 { Texts46(); }
    else if i < 50 { Texts48(); }
    else if i < 52 { Texts50(); }
    else if i < 54 { Texts52(); }
    else if i < 56 { Texts54(); }
    else if i < 58 { Texts56(); }
    else if i < 59 { Texts58(); }
    else if i < 61 { Texts59(); }
    else if i < 65 { Texts61(); }
    else if i < 67 { Texts65(); }
    else if i < 69 { Texts67(); }
    else if i < 71 { Texts69(); }
    else if i < 72 { Texts71(); }
    else if i < 74 { Texts72(); }
    else if i < 77 { Texts74(); }
    else if i < 79 { Texts77(); }
    else if i < 81 { Texts79(); }
    else if i < 83 { Texts81(); }
    else if i < 86 { Texts83(); }
    else if i < 88 { Texts86(); }
    else if i < 90 { Texts88(); }
    else if i < 91 { Texts90(); }
    else if i < 93 { Texts91(); }
    else if i < 96 { Texts93(); }
    else if i < 98 { Texts96(); }
    else if i < 99 { Texts98(); }
    else if i < 100 { Texts99(); }
    else if i < 101 { Texts100(); }
    else if i < 103 { Texts101(); }
    else if i < 106 { Texts103(); }
    else if i < 109 { Texts106(); }
    else if i < 113 { Texts109(); }
    else if i < 115 { Texts113(); }
    else if i < 117 { Texts115(); }
    else if i < 120 { Texts117(); }
    else if i < 122 { Texts120(); }
    else if i < 124 { Texts122(); }
  }

  lemma AllFound(i: nat)
    requires i < 124
    ensures Found(i)
  {
    hide Found;
    if i < 2 { Chains0(); }
    else if i < 4 { Chains2(); }
    else if i < 7 { Chains4(); }
    else if i < 9 { Chains7(); }
    else if i < 11 { Chains9(); }
    else if i < 14 { Chains11(); }
    else if i < 17 { Chains14(); }
    else if i < 20 { Chains17(); }
    else if i < 23 { Chains20(); }
    else if i < 26 { Chains23(); }
    else if i < 29 { Chains26(); }
    else if i < 31 { Chains29(); }
    else if i < 33 { Chains31(); }
    else if i < 35 { Chains33(); }
    else if i < 37 { Chains35(); }
    else if i < 39 { Chains37(); }
    else if i < 41 { Chains39(); }
    else if i < 44 { Chains41(); }
    else if i < 47 { Chains44(); }
    else if i < 49 { Chains47(); }
    else if i < 51 { Chains49(); }
    else if i < 54 { Chains51(); }
    else if i < 57 { Chains54(); }
    else if i < 60 { Chains57(); }
    else if i < 63 { Chains60(); }
    else if i < 65 { Chains63(); }
    else if i < 67 { Chains65(); }
    else if i < 70 { Chains67(); }
    else if i < 72 { Chains70(); }
    else if i < 74 { Chains72(); }
    else if i < 77 { Chains74(); }
    else if i < 80 { Chains77(); }
    else if i < 83 { Chains80(); }
    else if i < 86 { Chains83(); }
    else if i < 89 { Chains86(); }
    else if i < 92 { Chains89(); }
    else if i < 96 { Chains92(); }
    else if i < 98 { Chains96(); }
    else if i < 100 { Chains98(); }
    else if i < 103 { Chains100(); }
    else if i < 106 { Chains103(); }
    else if i < 109 { Chains106(); }
    else if i < 113 { Chains109(); }
    else if i < 117 { Chains113(); }
    else if i < 121 { Chains117(); }
    else if i < 124 { Chains121(); }
  }
}
