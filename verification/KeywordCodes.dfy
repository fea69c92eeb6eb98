/**
 What the codes of keywords mean: the terminals by name, and the terminal of each keyword. The numbered lemmas
 check aCode against the names, a few entries at a time; AllNamed collects them.
 */
module KeywordCodes {
  import opened ParserCodes
  import opened KeywordTables

  /** yyTokenName (parse.c:1055-1091), for the terminals between "$" and "error". */
  function TokenName(code: nat): seq<byte>
    requires 0 < code < 143
  {
    if code < 5 then [[S, E, M, I], [E, X, P, L, A, I, N], [Q, U, E, R, Y], [P, L, A, N]][code - 1]
    else if code < 9 then
      [[B, E, G, I, N], [T, R, A, N, S, A, C, T, I, O, N], [D, E, F, E, R, R, E, D],
       [I, M, M, E, D, I, A, T, E]][code - 5]
    else if code < 13 then
      [[E, X, C, L, U, S, I, V, E], [C, O, M, M, I, T], [E, N, D], [R, O, L, L, B, A, C, K]][code - 9]
    else if code < 17 then [[S, A, V, E, P, O, I, N, T], [R, E, L, E, A, S, E], [T, O], [T, A, B, L, E]][code - 13]
    else if code < 21 then [[C, R, E, A, T, E], [I, F], [N, O, T], [E, X, I, S, T, S]][code - 17]
    else if code < 25 then [[T, E, M, P], [L, P], [R, P], [A, S]][code - 21]
    else if code < 29 then [[W, I, T, H, O, U, T], [C, O, M, M, A], [O, R], [A, N, D]][code - 25]
    else if code < 33 then [[I, S], [M, A, T, C, H], [L, I, K, E, US, K, W], [B, E, T, W, E, E, N]][code - 29]
    else if code < 37 then [[I, N], [I, S, N, U, L, L], [N, O, T, N, U, L, L], [N, E]][code - 33]
    else if code < 41 then [[E, Q], [G, T], [L, E], [L, T]][code - 37]
    else if code < 45 then [[G, E], [E, S, C, A, P, E], [B, I, T, A, N, D], [B, I, T, O, R]][code - 41]
    else if code < 49 then [[L, S, H, I, F, T], [R, S, H, I, F, T], [P, L, U, S], [M, I, N, U, S]][code - 45]
    else if code < 53 then [[S, T, A, R], [S, L, A, S, H], [R, E, M], [C, O, N, C, A, T]][code - 49]
    else if code < 57 then [[C, O, L, L, A, T, E], [B, I, T, N, O, T], [I, D], [I, N, D, E, X, E, D]][code - 53]
    else if code < 61 then [[A, B, O, R, T], [A, C, T, I, O, N], [A, F, T, E, R], [A, N, A, L, Y, Z, E]][code - 57]
    else if code < 65 then [[A, S, C], [A, T, T, A, C, H], [B, E, F, O, R, E], [B, Y]][code - 61]
    else if code < 69 then
      [[C, A, S, C, A, D, E], [C, A, S, T], [C, O, L, U, M, N, K, W], [C, O, N, F, L, I, C, T]][code - 65]
    else if code < 73 then [[D, A, T, A, B, A, S, E], [D, E, S, C], [D, E, T, A, C, H], [E, A, C, H]][code - 69]
    else if code < 77 then [[F, A, I, L], [F, O, R], [I, G, N, O, R, E], [I, N, I, T, I, A, L, L, Y]][code - 73]
    else if code < 81 then [[I, N, S, T, E, A, D], [N, O], [K, E, Y], [O, F]][code - 77]
    else if code < 85 then
      [[O, F, F, S, E, T], [P, R, A, G, M, A], [R, A, I, S, E], [R, E, C, U, R, S, I, V, E]][code - 81]
    else if code < 89 then
      [[R, E, P, L, A, C, E], [R, E, S, T, R, I, C, T], [R, O, W], [T, R, I, G, G, E, R]][code - 85]
    else if code < 93 then [[V, A, C, U, U, M], [V, I, E, W], [V, I, R, T, U, A, L], [W, I, T, H]][code - 89]
    else if code < 97 then
      [[R, E, I, N, D, E, X], [R, E, N, A, M, E], [C, T, I, M, E, US, K, W], [A, N, Y]][code - 93]
    else if code < 101 then
      [[S, T, R, I, N, G], [J, O, I, N, US, K, W], [C, O, N, S, T, R, A, I, N, T], [D, E, F, A, U, L, T]][code - 97]
    else if code < 105 then [[N, U, L, L], [P, R, I, M, A, R, Y], [U, N, I, Q, U, E], [C, H, E, C, K]][code - 101]
    else if code < 109 then
      [[R, E, F, E, R, E, N, C, E, S], [A, U, T, O, I, N, C, R], [O, N], [I, N, S, E, R, T]][code - 105]
    else if code < 113 then
      [[D, E, L, E, T, E], [U, P, D, A, T, E], [S, E, T], [D, E, F, E, R, R, A, B, L, E]][code - 109]
    else if code < 117 then [[F, O, R, E, I, G, N], [D, R, O, P], [U, N, I, O, N], [A, L, L]][code - 113]
    else if code < 121 then
      [[E, X, C, E, P, T], [I, N, T, E, R, S, E, C, T], [S, E, L, E, C, T], [V, A, L, U, E, S]][code - 117]
    else if code < 125 then [[D, I, S, T, I, N, C, T], [D, O, T], [F, R, O, M], [J, O, I, N]][code - 121]
    else if code < 129 then [[U, S, I, N, G], [O, R, D, E, R], [G, R, O, U, P], [H, A, V, I, N, G]][code - 125]
    else if code < 133 then [[L, I, M, I, T], [W, H, E, R, E], [I, N, T, O], [F, L, O, A, T]][code - 129]
    else if code < 137 then [[B, L, O, B], [I, N, T, E, G, E, R], [V, A, R, I, A, B, L, E], [C, A, S, E]][code - 133]
    else if code < 141 then [[W, H, E, N], [T, H, E, N], [E, L, S, E], [I, N, D, E, X]][code - 137]
    else [[A, L, T, E, R], [A, D, D]][code - 141]
  }

  /** The terminal a keyword stands for: the one of its own name, but for those that share one or abbreviate it. */
  function Terminal(i: nat): seq<byte>
    requires i < 124
  {
    if i in {12, 64, 109} then [L, I, K, E, US, K, W]
    else if i in {20, 29, 50, 57, 98, 108, 115} then [J, O, I, N, US, K, W]
    else if i in {71, 99, 100} then [C, T, I, M, E, US, K, W]
    else if i == 43 then [T, E, M, P]
    else if i == 91 then [A, U, T, O, I, N, C, R]
    else if i == 95 then [C, O, L, U, M, N, K, W]
    else Word(i)
  }

  /** The keywords that do not give their terminal its name. */
  lemma AliasWords()
    ensures Word(12) == [R, E, G, E, X, P]
    ensures Word(64) == [L, I, K, E]
    ensures Word(109) == [G, L, O, B]
    ensures Word(20) == [L, E, F, T]
    ensures Word(29) == [N, A, T, U, R, A, L]
    ensures Word(50) == [O, U, T, E, R]
    ensures Word(57) == [I, N, N, E, R]
    ensures Word(98) == [C, R, O, S, S]
    ensures Word(108) == [F, U, L, L]
    ensures Word(115) == [R, I, G, H, T]
    ensures Word(71) == [C, U, R, R, E, N, T, US, D, A, T, E]
    ensures Word(99) == [C, U, R, R, E, N, T, US, T, I, M, E, S, T, A, M, P]
    ensures Word(100) == [C, U, R, R, E, N, T, US, T, I, M, E]
    ensures Word(43) == [T, E, M, P, O, R, A, R, Y]
    ensures Word(91) == [A, U, T, O, I, N, C, R, E, M, E, N, T]
    ensures Word(95) == [C, O, L, U, M, N]
  {
  }

  predicate Named(i: nat)
    requires i < 124
  {
    0 < ACode(i) < 143 && TokenName(ACode(i)) == Terminal(i)
  }

  lemma Codes0()
    ensures Named(0) && Named(1) && Named(2) && Named(3)
  {
  }

  lemma Codes4()
    ensures Named(4) && Named(5) && Named(6) && Named(7)
  {
  }

  lemma Codes8()
    ensures Named(8) && Named(9) && Named(10) && Named(11)
  {
  }

  lemma Codes12()
    ensures Named(12) && Named(13) && Named(14) && Named(15)
  {
  }

  lemma Codes16()
    ensures Named(16) && Named(17) && Named(18) && Named(19)
  {
  }

  lemma Codes20()
    ensures Named(20) && Named(21) && Named(22) && Named(23)
  {
  }

  lemma Codes24()
    ensures Named(24) && Named(25) && Named(26) && Named(27)
  {
  }

  lemma Codes28()
    ensures Named(28) && Named(29) && Named(30) && Named(31)
  {
  }

  lemma Codes32()
    ensures Named(32) && Named(33) && Named(34) && Named(35)
  {
  }

  lemma Codes36()
    ensures Named(36) && Named(37) && Named(38) && Named(39)
  {
  }

  lemma Codes40()
    ensures Named(40) && Named(41) && Named(42) && Named(43)
  {
  }

  lemma Codes44()
    ensures Named(44) && Named(45) && Named(46) && Named(47)
  {
  }

  lemma Codes48()
    ensures Named(48) && Named(49) && Named(50) && Named(51)
  {
  }

  lemma Codes52()
    ensures Named(52) && Named(53) && Named(54) && Named(55)
  {
  }

  lemma Codes56()
    ensures Named(56) && Named(57) && Named(58) && Named(59)
  {
  }

  lemma Codes60()
    ensures Named(60) && Named(61) && Named(62) && Named(63)
  {
  }

  lemma Codes64()
    ensures Named(64) && Named(65) && Named(66) && Named(67)
  {
  }

  lemma Codes68()
    ensures Named(68) && Named(69) && Named(70) && Named(71)
  {
  }

  lemma Codes72()
    ensures Named(72) && Named(73) && Named(74) && Named(75)
  {
  }

  lemma Codes76()
    ensures Named(76) && Named(77) && Named(78) && Named(79)
  {
  }

  lemma Codes80()
    ensures Named(80) && Named(81) && Named(82) && Named(83)
  {
  }

  lemma Codes84()
    ensures Named(84) && Named(85) && Named(86) && Named(87)
  {
  }

  lemma Codes88()
    ensures Named(88) && Named(89) && Named(90) && Named(91)
  {
  }

  lemma Codes92()
    ensures Named(92) && Named(93) && Named(94) && Named(95)
  {
  }

  lemma Codes96()
    ensures Named(96) && Named(97) && Named(98) && Named(99)
  {
  }

  lemma Codes100()
    ensures Named(100) && Named(101) && Named(102) && Named(103)
  {
  }

  lemma Codes104()
    ensures Named(104) && Named(105) && Named(106) && Named(107)
  {
  }

  lemma Codes108()
    ensures Named(108) && Named(109) && Named(110) && Named(111)
  {
  }

  lemma Codes112()
    ensures Named(112) && Named(113) && Named(114) && Named(115)
  {
  }

  lemma Codes116()
    ensures Named(116) && Named(117) && Named(118) && Named(119)
  {
  }

  lemma Codes120()
    ensures Named(120) && Named(121) && Named(122) && Named(123)
  {
  }

  /** Every entry has the code of its keyword's terminal. */
  lemma AllNamed(i: nat)
    requires i < 124
    ensures Named(i)
  {
    hide Named;
    if i < 4 { Codes0(); }
    else if i < 8 { Codes4(); }
    else if i < 12 { Codes8(); }
    else if i < 16 { Codes12(); }
    else if i < 20 { Codes16(); }
    else if i < 24 { Codes20(); }
    else if i < 28 { Codes24(); }
    else if i < 32 { Codes28(); }
    else if i < 36 { Codes32(); }
    else if i < 40 { Codes36(); }
    else if i < 44 { Codes40(); }
    else if i < 48 { Codes44(); }
    else if i < 52 { Codes48(); }
    else if i < 56 { Codes52(); }
    else if i < 60 { Codes56(); }
    else if i < 64 { Codes60(); }
    else if i < 68 { Codes64(); }
    else if i < 72 { Codes68(); }
    else if i < 76 { Codes72(); }
    else if i < 80 { Codes76(); }
    else if i < 84 { Codes80(); }
    else if i < 88 { Codes84(); }
    else if i < 92 { Codes88(); }
    else if i < 96 { Codes92(); }
    else if i < 100 { Codes96(); }
    else if i < 104 { Codes100(); }
    else if i < 108 { Codes104(); }
    else if i < 112 { Codes108(); }
    else if i < 116 { Codes112(); }
    else if i < 120 { Codes116(); }
    else if i < 124 { Codes120(); }
  }

  /** The two terminals that the code names by number. */
  lemma NamedConstants()
    ensures TokenName(YYWILDCARD) == [A, N, Y] && TokenName(55) == [I, D]
  {
  }
}
