/** Element reference data: the 118 symbols of `ELEMENTS`, the Japanese names of
    elements 1 to 20 (`NAME_JA_1_20`, `nameJaForZ`) and the distractor sampler
    `sampleDistinctSymbols`. */
module Elements {
  import opened Util
  import opened Random
  import Decimal

  /** `ELEMENTS[z - 1].symbol` for atomic numbers 1 to 118 (IUPAC symbols, H to Og). */
  function SymbolOf(z: int): (s: string)
    requires 1 <= z <= 118
  {
    match z
    case 1 => "H"
    case 2 => "He"
    case 3 => "Li"
    case 4 => "Be"
    case 5 => "B"
    case 6 => "C"
    case 7 => "N"
    case 8 => "O"
    case 9 => "F"
    case 10 => "Ne"
    case 11 => "Na"
    case 12 => "Mg"
    case 13 => "Al"
    case 14 => "Si"
    case 15 => "P"
    case 16 => "S"
    case 17 => "Cl"
    case 18 => "Ar"
    case 19 => "K"
    case 20 => "Ca"
    case 21 => "Sc"
    case 22 => "Ti"
    case 23 => "V"
    case 24 => "Cr"
    case 25 => "Mn"
    case 26 => "Fe"
    case 27 => "Co"
    case 28 => "Ni"
    case 29 => "Cu"
    case 30 => "Zn"
    case 31 => "Ga"
    case 32 => "Ge"
    case 33 => "As"
    case 34 => "Se"
    case 35 => "Br"
    case 36 => "Kr"
    case 37 => "Rb"
    case 38 => "Sr"
    case 39 => "Y"
    case 40 => "Zr"
    case 41 => "Nb"
    case 42 => "Mo"
    case 43 => "Tc"
    case 44 => "Ru"
    case 45 => "Rh"
    case 46 => "Pd"
    case 47 => "Ag"
    case 48 => "Cd"
    case 49 => "In"
    case 50 => "Sn"
    case 51 => "Sb"
    case 52 => "Te"
    case 53 => "I"
    case 54 => "Xe"
    case 55 => "Cs"
    case 56 => "Ba"
    case 57 => "La"
    case 58 => "Ce"
    case 59 => "Pr"
    case 60 => "Nd"
    case 61 => "Pm"
    case 62 => "Sm"
    case 63 => "Eu"
    case 64 => "Gd"
    case 65 => "Tb"
    case 66 => "Dy"
    case 67 => "Ho"
    case 68 => "Er"
    case 69 => "Tm"
    case 70 => "Yb"
    case 71 => "Lu"
    case 72 => "Hf"
    case 73 => "Ta"
    case 74 => "W"
    case 75 => "Re"
    case 76 => "Os"
    case 77 => "Ir"
    case 78 => "Pt"
    case 79 => "Au"
    case 80 => "Hg"
    case 81 => "Tl"
    case 82 => "Pb"
    case 83 => "Bi"
    case 84 => "Po"
    case 85 => "At"
    case 86 => "Rn"
    case 87 => "Fr"
    case 88 => "Ra"
    case 89 => "Ac"
    case 90 => "Th"
    case 91 => "Pa"
    case 92 => "U"
    case 93 => "Np"
    case 94 => "Pu"
    case 95 => "Am"
    case 96 => "Cm"
    case 97 => "Bk"
    case 98 => "Cf"
    case 99 => "Es"
    case 100 => "Fm"
    case 101 => "Md"
    case 102 => "No"
    case 103 => "Lr"
    case 104 => "Rf"
    case 105 => "Db"
    case 106 => "Sg"
    case 107 => "Bh"
    case 108 => "Hs"
    case 109 => "Mt"
    case 110 => "Ds"
    case 111 => "Rg"
    case 112 => "Cn"
    case 113 => "Nh"
    case 114 => "Fl"
    case 115 => "Mc"
    case 116 => "Lv"
    case 117 => "Ts"
    case 118 => "Og"
    case _ => ""
  }

  /** Looks a symbol up by its letters; 0 when it is not one of the 118. The table
      has one symbol per first letter and second letter, so the lookup is a two-level
      dispatch on characters. */
  function ZOfSymbol(s: string): int {
    if |s| == 0 || |s| > 2 then 0
    else
      var second := if |s| == 2 then s[1] else ' ';
      match s[0]
      case 'A' =>
        (match second
         case 'l' => 13
         case 'r' => 18
         case 's' => 33
         case 'g' => 47
         case 'u' => 79
         case 't' => 85
         case 'c' => 89
         case 'm' => 95
         case _ => 0)
      case 'B' =>
        (match second
         case 'e' => 4
         case ' ' => 5
         case 'r' => 35
         case 'a' => 56
         case 'i' => 83
         case 'k' => 97
         case 'h' => 107
         case _ => 0)
      case 'C' =>
        (match second
         case ' ' => 6
         case 'l' => 17
         case 'a' => 20
         case 'r' => 24
         case 'o' => 27
         case 'u' => 29
         case 'd' => 48
         case 's' => 55
         case 'e' => 58
         case 'm' => 96
         case 'f' => 98
         case 'n' => 112
         case _ => 0)
      case 'D' =>
        (match second
         case 'y' => 66
         case 'b' => 105
         case 's' => 110
         case _ => 0)
      case 'E' =>
        (match second
         case 'u' => 63
         case 'r' => 68
         case 's' => 99
         case _ => 0)
      case 'F' =>
        (match second
         case ' ' => 9
         case 'e' => 26
         case 'r' => 87
         case 'm' => 100
         case 'l' => 114
         case _ => 0)
      case 'G' =>
        (match second
         case 'a' => 31
         case 'e' => 32
         case 'd' => 64
         case _ => 0)
      case 'H' =>
        (match second
         case ' ' => 1
         case 'e' => 2
         case 'o' => 67
         case 'f' => 72
         case 'g' => 80
         case 's' => 108
         case _ => 0)
      case 'I' =>
        (match second
         case 'n' => 49
         case ' ' => 53
         case 'r' => 77
         case _ => 0)
      case 'K' =>
        (match second
         case ' ' => 19
         case 'r' => 36
         case _ => 0)
      case 'L' =>
        (match second
         case 'i' => 3
         case 'a' => 57
         case 'u' => 71
         case 'r' => 103
         case 'v' => 116
         case _ => 0)
      case 'M' =>
        (match second
         case 'g' => 12
         case 'n' => 25
         case 'o' => 42
         case 'd' => 101
         case 't' => 109
         case 'c' => 115
         case _ => 0)
      case 'N' =>
        (match second
         case ' ' => 7
         case 'e' => 10
         case 'a' => 11
         case 'i' => 28
         case 'b' => 41
         case 'd' => 60
         case 'p' => 93
         case 'o' => 102
         case 'h' => 113
         case _ => 0)
      case 'O' =>
        (match second
         case ' ' => 8
         case 's' => 76
         case 'g' => 118
         case _ => 0)
      case 'P' =>
        (match second
         case ' ' => 15
         case 'd' => 46
         case 'r' => 59
         case 'm' => 61
         case 't' => 78
         case 'b' => 82
         case 'o' => 84
         case 'a' => 91
         case 'u' => 94
         case _ => 0)
      case 'R' =>
        (match second
         case 'b' => 37
         case 'u' => 44
         case 'h' => 45
         case 'e' => 75
         case 'n' => 86
         case 'a' => 88
         case 'f' => 104
         case 'g' => 111
         case _ => 0)
      case 'S' =>
        (match second
         case 'i' => 14
         case ' ' => 16
         case 'c' => 21
         case 'e' => 34
         case 'r' => 38
         case 'n' => 50
         case 'b' => 51
         case 'm' => 62
         case 'g' => 106
         case _ => 0)
      case 'T' =>
        (match second
         case 'i' => 22
         case 'c' => 43
         case 'e' => 52
         case 'b' => 65
         case 'm' => 69
         case 'a' => 73
         case 'l' => 81
         case 'h' => 90
         case 's' => 117
         case _ => 0)
      case 'U' =>
        (match second
         case ' ' => 92
         case _ => 0)
      case 'V' =>
        (match second
         case ' ' => 23
         case _ => 0)
      case 'W' =>
        (match second
         case ' ' => 74
         case _ => 0)
      case 'X' =>
        (match second
         case 'e' => 54
         case _ => 0)
      case 'Y' =>
        (match second
         case ' ' => 39
         case 'b' => 70
         case _ => 0)
      case 'Z' =>
        (match second
         case 'n' => 30
         case 'r' => 40
         case _ => 0)
      case _ => 0
  }

  /** Every entry of the table is found again by its symbol, range by range to keep
      each proof small (the later entries sit deeper in the dispatch). */
  lemma SymbolRoundTripFrom1(z: int)
    requires 1 <= z <= 20
    ensures ZOfSymbol(SymbolOf(z)) == z
  {
  }

  lemma SymbolRoundTripFrom21(z: int)
    requires 21 <= z <= 40
    ensures ZOfSymbol(SymbolOf(z)) == z
  {
  }

  lemma SymbolRoundTripFrom41(z: int)
    requires 41 <= z <= 60
    ensures ZOfSymbol(SymbolOf(z)) == z
  {
  }

  lemma SymbolRoundTripFrom61(z: int)
    requires 61 <= z <= 70
    ensures ZOfSymbol(SymbolOf(z)) == z
  {
  }

  lemma SymbolRoundTripFrom71(z: int)
    requires 71 <= z <= 80
    ensures ZOfSymbol(SymbolOf(z)) == z
  {
  }

  lemma SymbolRoundTripFrom81(z: int)
    requires 81 <= z <= 90
    ensures ZOfSymbol(SymbolOf(z)) == z
  {
  }

  lemma SymbolRoundTripFrom91(z: int)
    requires 91 <= z <= 100
    ensures ZOfSymbol(SymbolOf(z)) == z
  {
  }

  lemma SymbolRoundTripFrom101(z: int)
    requires 101 <= z <= 110
    ensures ZOfSymbol(SymbolOf(z)) == z
  {
  }

  lemma SymbolRoundTripFrom111(z: int)
    requires 111 <= z <= 118
    ensures ZOfSymbol(SymbolOf(z)) == z
  {
  }

  /** `ELEMENTS.map(e => e.symbol)`. */
  function AllSymbols(): (r: seq<string>)
    ensures |r| == 118
    ensures forall k :: 0 <= k < 118 ==> r[k] == SymbolOf(k + 1)
  {
    seq(118, k requires 0 <= k < 118 => SymbolOf(k + 1))
  }

  /** The symbol at index `k` of the table is found again by its letters. */
  lemma SymbolRoundTrip(k: int)
    requires 0 <= k < 118
    ensures ZOfSymbol(AllSymbols()[k]) == k + 1
  {
    var z := k + 1;
    if z <= 20 {
      SymbolRoundTripFrom1(z);
    } else if z <= 40 {
      SymbolRoundTripFrom21(z);
    } else if z <= 60 {
      SymbolRoundTripFrom41(z);
    } else if z <= 70 {
      SymbolRoundTripFrom61(z);
    } else if z <= 80 {
      SymbolRoundTripFrom71(z);
    } else if z <= 90 {
      SymbolRoundTripFrom81(z);
    } else if z <= 100 {
      SymbolRoundTripFrom91(z);
    } else if z <= 110 {
      SymbolRoundTripFrom101(z);
    } else {
      SymbolRoundTripFrom111(z);
    }
  }

  /** No two elements share a symbol. */
  lemma AllSymbolsDistinct()
    ensures Distinct(AllSymbols())
  {
    var all := AllSymbols();
    forall i, j | 0 <= i < j < 118 ensures all[i] != all[j] {
      SymbolRoundTrip(i);
      SymbolRoundTrip(j);
    }
  }

  /** `s` is the symbol of one of the 118 elements. */
  predicate IsSymbol(s: string) {
    s in AllSymbols()
  }

  /** The symbol of each of the 118 elements is in the symbol list. */
  lemma SymbolOfIsSymbol(z: int)
    requires 1 <= z <= 118
    ensures IsSymbol(SymbolOf(z))
  {
    assert AllSymbols()[z - 1] == SymbolOf(z);
  }

  /** `pool.filter(s => s !== x)`. */
  function Without(s: seq<string>, x: string): (r: seq<string>)
    ensures x !in r
    ensures forall y :: y in r <==> y in s && y != x
    ensures |r| == |s| - multiset(s)[x]
    ensures Distinct(s) ==> Distinct(r)
    decreases |s|
  {
    if s == [] then []
    else
      var rest := Without(s[1..], x);
      assert s == [s[0]] + s[1..];
      if s[0] == x then rest
      else
        assert Distinct(s) ==> s[0] !in s[1..];
        [s[0]] + rest
  }

  /** `array.slice(0, count)`: a negative `count` counts back from the end. */
  function SliceTo<T>(s: seq<T>, count: int): (r: seq<T>)
    ensures count >= 0 ==> |r| == (if count <= |s| then count else |s|)
    ensures count < 0 ==> |r| == (if |s| + count >= 0 then |s| + count else 0)
    ensures r == s[..|r|]
  {
    var end := if count >= 0 then (if count <= |s| then count else |s|)
               else (if |s| + count >= 0 then |s| + count else 0);
    s[..end]
  }

  /** The candidates for distractors: every symbol but the excluded one. */
  function Pool(exclude: string): seq<string> {
    Without(AllSymbols(), exclude)
  }

  /** The pool has 117 symbols when `exclude` is a symbol and all 118 otherwise. */
  lemma PoolSize(exclude: string)
    ensures Distinct(Pool(exclude))
    ensures |Pool(exclude)| == if exclude in AllSymbols() then 117 else 118
    ensures forall k :: 0 <= k < |Pool(exclude)| ==> IsSymbol(Pool(exclude)[k])
  {
    AllSymbolsDistinct();
    DistinctMultiplicity(AllSymbols(), exclude);
    forall k | 0 <= k < |Pool(exclude)| ensures IsSymbol(Pool(exclude)[k]) {
      assert Pool(exclude)[k] in Pool(exclude);
    }
  }

  /** Shuffling keeps the pool's size (at least 117)... */
  lemma ShuffledPoolSize(exclude: string, picks: seq<nat>)
    requires |picks| >= |Pool(exclude)| - 1
    ensures |FisherYates(Pool(exclude), picks)| == |Pool(exclude)| >= 117
  {
    PoolSize(exclude);
    FisherYatesPermutes(Pool(exclude), picks);
  }

  /** ...its distinctness... */
  lemma ShuffledPoolDistinct(exclude: string, picks: seq<nat>)
    requires |picks| >= |Pool(exclude)| - 1
    ensures Distinct(FisherYates(Pool(exclude), picks))
  {
    PoolSize(exclude);
    FisherYatesPermutes(Pool(exclude), picks);
    DistinctPermutation(Pool(exclude), FisherYates(Pool(exclude), picks));
  }

  /** ...and its members: symbols other than the excluded one. */
  lemma ShuffledPoolMembers(exclude: string, picks: seq<nat>)
    requires |picks| >= |Pool(exclude)| - 1
    ensures forall k :: 0 <= k < |FisherYates(Pool(exclude), picks)| ==>
              FisherYates(Pool(exclude), picks)[k] != exclude && IsSymbol(FisherYates(Pool(exclude), picks)[k])
  {
    var pool := Pool(exclude);
    var shuffled := FisherYates(pool, picks);
    PoolSize(exclude);
    FisherYatesPermutes(pool, picks);
    forall k | 0 <= k < |shuffled| ensures shuffled[k] in pool {
      assert shuffled[k] in multiset(pool);
    }
  }

  /** A prefix of a distinct sequence of symbols avoiding `x` is one too. */
  lemma PrefixKeeps(s: seq<string>, x: string, n: nat)
    requires n <= |s| && Distinct(s)
    requires forall k :: 0 <= k < |s| ==> s[k] != x && IsSymbol(s[k])
    ensures Distinct(s[..n]) && x !in s[..n]
    ensures forall k :: 0 <= k < n ==> IsSymbol(s[..n][k])
  {
  }

  /** `sampleDistinctSymbols(count, excludeSymbol)`: shuffle the pool, keep the first
      `count`. At most `count` come back, all distinct symbols other than the excluded
      one, and exactly `count` whenever `count <= 117`. */
  function SampleDistinctSymbols(count: int, exclude: string, picks: seq<nat>): (r: seq<string>)
    requires PicksFit(picks, |Pool(exclude)|)
    ensures Distinct(r)
    ensures exclude !in r
    ensures forall k :: 0 <= k < |r| ==> IsSymbol(r[k])
    ensures count >= 0 ==> |r| <= count
    ensures 0 <= count <= 117 ==> |r| == count
  {
    var shuffled := FisherYates(Pool(exclude), picks);
    ShuffledPoolSize(exclude, picks);
    ShuffledPoolDistinct(exclude, picks);
    ShuffledPoolMembers(exclude, picks);
    var r := SliceTo(shuffled, count);
    PrefixKeeps(shuffled, exclude, |r|);
    r
  }

  /** The start-up check: seven distractors for hydrogen are seven distinct symbols, none
      of them "H", whatever the shuffle picks. */
  lemma DistractorsSelfTest(picks: seq<nat>)
    requires PicksFit(picks, |Pool("H")|)
    ensures var ds := SampleDistinctSymbols(7, "H", picks);
            |ds| == 7 && Distinct(ds) && "H" !in ds
  {
  }

  /** `NAME_JA_1_20[z]`: the Japanese names of elements 1 to 20. */
  function NameJa(z: int): Option<string> {
    match z
    case 1 => Some("水素")
    case 2 => Some("ヘリウム")
    case 3 => Some("リチウム")
    case 4 => Some("ベリリウム")
    case 5 => Some("ホウ素")
    case 6 => Some("炭素")
    case 7 => Some("窒素")
    case 8 => Some("酸素")
    case 9 => Some("フッ素")
    case 10 => Some("ネオン")
    case 11 => Some("ナトリウム")
    case 12 => Some("マグネシウム")
    case 13 => Some("アルミニウム")
    case 14 => Some("ケイ素")
    case 15 => Some("リン")
    case 16 => Some("硫黄")
    case 17 => Some("塩素")
    case 18 => Some("アルゴン")
    case 19 => Some("カリウム")
    case 20 => Some("カルシウム")
    case _ => None
  }

  /** Looks a Japanese name up; 0 when it is not one of the 20. */
  function ZOfNameJa(s: string): int {
    if s == "水素" then 1
    else if s == "ヘリウム" then 2
    else if s == "リチウム" then 3
    else if s == "ベリリウム" then 4
    else if s == "ホウ素" then 5
    else if s == "炭素" then 6
    else if s == "窒素" then 7
    else if s == "酸素" then 8
    else if s == "フッ素" then 9
    else if s == "ネオン" then 10
    else if s == "ナトリウム" then 11
    else if s == "マグネシウム" then 12
    else if s == "アルミニウム" then 13
    else if s == "ケイ素" then 14
    else if s == "リン" then 15
    else if s == "硫黄" then 16
    else if s == "塩素" then 17
    else if s == "アルゴン" then 18
    else if s == "カリウム" then 19
    else if s == "カルシウム" then 20
    else 0
  }

  /** The fallback label `元素（z）` for atomic numbers without a name. */
  function FallbackName(z: int): string {
    "元素（" + Decimal.IntToString(z) + "）"
  }

  /** `nameJaForZ(z)`: the table name, or the fallback label. */
  function NameJaForZ(z: int): (name: string)
    ensures 1 <= z <= 20 ==> Some(name) == NameJa(z)
    ensures !(1 <= z <= 20) ==> name == FallbackName(z)
  {
    match NameJa(z)
    case Some(v) => v
    case None => FallbackName(z)
  }

  lemma NameJaRoundTrip(z: int)
    requires 1 <= z <= 20
    ensures NameJa(z).Some? && ZOfNameJa(NameJa(z).value) == z
    ensures |NameJa(z).value| > 0 && NameJa(z).value[0] != '元'
  {
  }

  /** Different atomic numbers get different labels, so an element-name prompt always
      names one element. */
  lemma NameJaForZInjective(a: int, b: int)
    requires a != b
    ensures NameJaForZ(a) != NameJaForZ(b)
  {
    var na, nb := NameJaForZ(a), NameJaForZ(b);
    if 1 <= a <= 20 && 1 <= b <= 20 {
      NameJaRoundTrip(a);
      NameJaRoundTrip(b);
    } else if 1 <= a <= 20 {
      NameJaRoundTrip(a);
      assert nb[0] == '元';
    } else if 1 <= b <= 20 {
      NameJaRoundTrip(b);
      assert na[0] == '元';
    } else {
      Decimal.IntToStringInjective(a, b);
      var sa, sb := Decimal.IntToString(a), Decimal.IntToString(b);
      assert na[3..|na| - 1] == sa;
      assert nb[3..|nb| - 1] == sb;
    }
  }
}
