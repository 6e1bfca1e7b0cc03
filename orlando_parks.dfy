/**
 * The fixed catalogue of Orlando parks and the numbered list shown to users
 * (`get_orlando_parks`). The queue-time agent maps the number a user types to
 * a position in this list and matches park names in free text against it.
 */
module OrlandoParks {
  import opened Text

  /** `id` is the park's id in the Queue-Times API, `nome` its display name. */
  datatype Park = Park(id: nat, nome: string, codigo: string)

  const MagicKingdom := "Magic Kingdom"
  const AnimalKingdom := "Animal Kingdom"
  const HollywoodStudios := "Hollywood Studios"
  const Epcot := "Epcot"
  const UniversalStudiosFlorida := "Universal Studios Florida"
  const IslandsOfAdventure := "Islands of Adventure"
  const VolcanoBay := "Volcano Bay"
  const SeaWorldOrlando := "SeaWorld Orlando"

  const Parks: seq<Park> := [
    Park(1, MagicKingdom, "magic-kingdom"),
    Park(2, AnimalKingdom, "animal-kingdom"),
    Park(5, HollywoodStudios, "hollywood-studios"),
    Park(6, Epcot, "epcot"),
    Park(3, UniversalStudiosFlorida, "universal-studios"),
    Park(4, IslandsOfAdventure, "islands-of-adventure"),
    Park(7, VolcanoBay, "volcano-bay"),
    Park(8, SeaWorldOrlando, "seaworld")
  ]

  /** The catalogue has eight parks; their names are the constants above, in order. */
  lemma ParkNames()
    ensures |Parks| == 8
    ensures Parks[0].nome == MagicKingdom
    ensures Parks[1].nome == AnimalKingdom
    ensures Parks[2].nome == HollywoodStudios
    ensures Parks[3].nome == Epcot
    ensures Parks[4].nome == UniversalStudiosFlorida
    ensures Parks[5].nome == IslandsOfAdventure
    ensures Parks[6].nome == VolcanoBay
    ensures Parks[7].nome == SeaWorldOrlando
  {
  }

  /** The text `"{i}. {nome}"` of a line of the numbered list. */
  function LineText(i: nat, p: Park): string {
    NatToString(i) + ". " + p.nome
  }

  /** The line `"{i}. {nome}\n"` of the numbered list. */
  function Line(i: nat, p: Park): string {
    LineText(i, p) + "\n"
  }

  /** The numbered list of `ps`, numbering from `k`. */
  function NumberedFrom(ps: seq<Park>, k: nat): (r: string)
    ensures r == [] <==> ps == []
    decreases |ps|
  {
    if ps == [] then "" else Line(k, ps[0]) + NumberedFrom(ps[1..], k + 1)
  }

  lemma {:induction false} NumberedFromSnoc(ps: seq<Park>, p: Park, k: nat)
    ensures NumberedFrom(ps + [p], k) == NumberedFrom(ps, k) + Line(k + |ps|, p)
    decreases |ps|
  {
    if ps == [] {
      assert NumberedFrom([p], k) == Line(k, p) + NumberedFrom([], k + 1);
    } else {
      assert (ps + [p])[1..] == ps[1..] + [p];
      NumberedFromSnoc(ps[1..], p, k + 1);
    }
  }

  /** `get_orlando_parks`: the catalogue and its numbered list, built line by line. */
  method GetOrlandoParks() returns (parks: seq<Park>, listaNumerada: string)
    ensures parks == Parks
    ensures listaNumerada == NumberedFrom(parks, 1)
  {
    parks := Parks;
    listaNumerada := "";
    var i := 0;
    while i < |parks|
      invariant 0 <= i <= |parks|
      invariant listaNumerada == NumberedFrom(parks[..i], 1)
    {
      NumberedFromSnoc(parks[..i], parks[i], 1);
      assert parks[..i + 1] == parks[..i] + [parks[i]];
      listaNumerada := listaNumerada + Line(i + 1, parks[i]);
      i := i + 1;
    }
    assert parks[..i] == parks;
  }

  predicate NoNewlineInNames(ps: seq<Park>) {
    forall i :: 0 <= i < |ps| ==> '\n' !in ps[i].nome
  }

  /** The line texts of `ps`, numbering from `k`. */
  function LineTexts(ps: seq<Park>, k: nat): (r: seq<string>)
    ensures |r| == |ps| && forall i :: 0 <= i < |ps| ==> r[i] == NatToString(k + i) + ". " + ps[i].nome
  {
    seq(|ps|, i requires 0 <= i < |ps| => NatToString(k + i) + ". " + ps[i].nome)
  }

  lemma LineTextNoNewline(i: nat, p: Park)
    requires '\n' !in p.nome
    ensures '\n' !in LineText(i, p)
  {
    var text := LineText(i, p);
    var digits := NatToString(i);
    forall j | 0 <= j < |text|
      ensures text[j] != '\n'
    {
      if j < |digits| {
        assert text[j] == digits[j] && IsDigit(digits[j]);
      } else if j >= |digits| + 2 {
        assert text[j] == p.nome[j - |digits| - 2];
      }
    }
  }

  lemma LineTextsCons(ps: seq<Park>, k: nat)
    requires ps != []
    ensures LineTexts(ps, k) == [LineText(k, ps[0])] + LineTexts(ps[1..], k + 1)
  {
    var r := [LineText(k, ps[0])] + LineTexts(ps[1..], k + 1);
    forall i | 0 <= i < |ps|
      ensures LineTexts(ps, k)[i] == r[i]
    {
      if i > 0 {
        assert r[i] == LineTexts(ps[1..], k + 1)[i - 1];
        assert k + 1 + (i - 1) == k + i;
      }
    }
  }

  /** Line `i` of the numbered list (0-based) is `"{k + i}. {nome}"` for `ps[i]`. */
  lemma {:induction false} NumberedFromLines(ps: seq<Park>, k: nat)
    requires NoNewlineInNames(ps)
    ensures SplitLines(NumberedFrom(ps, k)) == LineTexts(ps, k)
    decreases |ps|
  {
    if ps != [] {
      LineTextNoNewline(k, ps[0]);
      NumberedFromLines(ps[1..], k + 1);
      SplitLinesCons(LineText(k, ps[0]), NumberedFrom(ps[1..], k + 1));
      LineTextsCons(ps, k);
    }
  }

  /** A non-empty numbered list ends in a newline. */
  lemma {:induction false} NumberedFromEndsInNewline(ps: seq<Park>, k: nat)
    requires ps != []
    ensures EndsWith(NumberedFrom(ps, k), "\n")
    decreases |ps|
  {
    var n := NumberedFrom(ps, k);
    var rest := NumberedFrom(ps[1..], k + 1);
    assert n == Line(k, ps[0]) + rest;
    if ps[1..] == [] {
      assert n == LineText(k, ps[0]) + "\n";
      assert n[|n| - 1..] == "\n";
    } else {
      NumberedFromEndsInNewline(ps[1..], k + 1);
      assert n[|n| - 1..] == rest[|rest| - 1..];
    }
  }

  // Facts about one literal name at a time keep each proof small.
  lemma NoNewlineInMagicKingdom() ensures '\n' !in MagicKingdom { }
  lemma NoNewlineInAnimalKingdom() ensures '\n' !in AnimalKingdom { }
  lemma NoNewlineInHollywoodStudios() ensures '\n' !in HollywoodStudios { }
  lemma NoNewlineInEpcot() ensures '\n' !in Epcot { }
  lemma NoNewlineInUniversalStudiosFlorida() ensures '\n' !in UniversalStudiosFlorida { }
  lemma NoNewlineInIslandsOfAdventure() ensures '\n' !in IslandsOfAdventure { }
  lemma NoNewlineInVolcanoBay() ensures '\n' !in VolcanoBay { }
  lemma NoNewlineInSeaWorldOrlando() ensures '\n' !in SeaWorldOrlando { }

  lemma NoNewlineInNamesOfParks()
    ensures NoNewlineInNames(Parks)
  {
    ParkNames();
    NoNewlineInMagicKingdom(); NoNewlineInAnimalKingdom(); NoNewlineInHollywoodStudios(); NoNewlineInEpcot(); NoNewlineInUniversalStudiosFlorida(); NoNewlineInIslandsOfAdventure(); NoNewlineInVolcanoBay(); NoNewlineInSeaWorldOrlando();
  }

  /** The list sent to users has one line per park, in catalogue order, and ends in a newline. */
  lemma ParksNumberedList()
    ensures SplitLines(NumberedFrom(Parks, 1)) ==
            seq(8, i requires 0 <= i < 8 => NatToString(i + 1) + ". " + Parks[i].nome)
    ensures EndsWith(NumberedFrom(Parks, 1), "\n")
  {
    NoNewlineInNamesOfParks();
    NumberedFromLines(Parks, 1);
    NumberedFromEndsInNewline(Parks, 1);
  }

  /** The ids are pairwise distinct and are exactly 1..8. */
  lemma ParkIdsArePermutation()
    ensures |Parks| == 8
    ensures forall i, j :: 0 <= i < j < |Parks| ==> Parks[i].id != Parks[j].id
    ensures (set i | 0 <= i < |Parks| :: Parks[i].id) == {1, 2, 3, 4, 5, 6, 7, 8}
  {
    var ids := set i | 0 <= i < |Parks| :: Parks[i].id;
    assert Parks[0].id in ids && Parks[1].id in ids && Parks[4].id in ids && Parks[5].id in ids;
    assert Parks[2].id in ids && Parks[3].id in ids && Parks[6].id in ids && Parks[7].id in ids;
  }

  // ---- no park name occurs inside another --------------------------------

  /** `a` is not inside `b` (ignoring case) when a letter of `a` is absent from `b` in either case. */
  lemma NameLacksChar(a: string, b: string, k: nat, c: char)
    requires k < |a| && 'a' <= c <= 'z' && LowerChar(a[k]) == c
    requires c !in b && ((c as int - 32) as char) !in b
    ensures !IsSubstring(Lower(a), Lower(b))
  {
    LowerAbsent(b, c);
    assert Lower(a)[k] == c;
    NotSubstringByChar(Lower(a), Lower(b), c);
  }

  /** A mismatch at position `j` of `needle` rules out an occurrence at offset `k`. */
  lemma NotOccursAtByChar(needle: string, hay: string, k: nat, j: nat)
    requires j < |needle| && k + j < |hay| && hay[k + j] != needle[j]
    ensures !OccursAt(needle, hay, k)
  {
  }

  /** The letters the comparison below looks at. */
  lemma IslandsUniversalLetters()
    ensures var n := Lower(IslandsOfAdventure);
            |n| == 20 && n[0] == 'i' && n[1] == 's'
    ensures var h := Lower(UniversalStudiosFlorida);
            |h| == 25 && h[0] == 'u' && h[1] == 'n' && h[2] == 'i' && h[3] == 'v' && h[4] == 'e' && h[5] == 'r'
  {
  }

  /** "islands of adventure" shares all its letters with "universal studios florida". */
  lemma IslandsNotInUniversal()
    ensures !IsSubstring(Lower(IslandsOfAdventure), Lower(UniversalStudiosFlorida))
  {
    IslandsUniversalLetters();
    NotInsideByFirstLetters(Lower(IslandsOfAdventure), Lower(UniversalStudiosFlorida));
  }

  /**
   * A 20-letter word starting "is" is not inside a 25-letter word starting
   * "univer": each of the six offsets has a mismatch.
   */
  lemma NotInsideByFirstLetters(n: string, h: string)
    requires |n| == 20 && n[0] == 'i' && n[1] == 's'
    requires |h| == 25 && h[0] == 'u' && h[1] == 'n' && h[2] == 'i' && h[3] == 'v' && h[4] == 'e' && h[5] == 'r'
    ensures !IsSubstring(n, h)
  {
    SubstringAt(n, h);
    forall k ensures !OccursAt(n, h, k) {
      if 0 <= k <= 5 {
        NotOccursAtByChar(n, h, k, if k == 2 then 1 else 0);
      }
    }
  }

  lemma LongerNotInside(a: string, b: string)
    requires |a| > |b|
    ensures !IsSubstring(a, b)
  {
  }

  lemma MagicKingdomNotInAnimalKingdom()
    ensures !IsSubstring(Lower(MagicKingdom), Lower(AnimalKingdom))
  {
    NameLacksChar(MagicKingdom, AnimalKingdom, 4, 'c');
  }

  lemma MagicKingdomNotInHollywoodStudios()
    ensures !IsSubstring(Lower(MagicKingdom), Lower(HollywoodStudios))
  {
    NameLacksChar(MagicKingdom, HollywoodStudios, 0, 'm');
  }

  lemma MagicKingdomNotInUniversalStudiosFlorida()
    ensures !IsSubstring(Lower(MagicKingdom), Lower(UniversalStudiosFlorida))
  {
    NameLacksChar(MagicKingdom, UniversalStudiosFlorida, 0, 'm');
  }

  lemma MagicKingdomNotInIslandsOfAdventure()
    ensures !IsSubstring(Lower(MagicKingdom), Lower(IslandsOfAdventure))
  {
    NameLacksChar(MagicKingdom, IslandsOfAdventure, 0, 'm');
  }

  lemma MagicKingdomNotInSeaWorldOrlando()
    ensures !IsSubstring(Lower(MagicKingdom), Lower(SeaWorldOrlando))
  {
    NameLacksChar(MagicKingdom, SeaWorldOrlando, 0, 'm');
  }

  lemma AnimalKingdomNotInHollywoodStudios()
    ensures !IsSubstring(Lower(AnimalKingdom), Lower(HollywoodStudios))
  {
    NameLacksChar(AnimalKingdom, HollywoodStudios, 0, 'a');
  }

  lemma AnimalKingdomNotInUniversalStudiosFlorida()
    ensures !IsSubstring(Lower(AnimalKingdom), Lower(UniversalStudiosFlorida))
  {
    NameLacksChar(AnimalKingdom, UniversalStudiosFlorida, 3, 'm');
  }

  lemma AnimalKingdomNotInIslandsOfAdventure()
    ensures !IsSubstring(Lower(AnimalKingdom), Lower(IslandsOfAdventure))
  {
    NameLacksChar(AnimalKingdom, IslandsOfAdventure, 3, 'm');
  }

  lemma AnimalKingdomNotInSeaWorldOrlando()
    ensures !IsSubstring(Lower(AnimalKingdom), Lower(SeaWorldOrlando))
  {
    NameLacksChar(AnimalKingdom, SeaWorldOrlando, 2, 'i');
  }

  lemma HollywoodStudiosNotInUniversalStudiosFlorida()
    ensures !IsSubstring(Lower(HollywoodStudios), Lower(UniversalStudiosFlorida))
  {
    NameLacksChar(HollywoodStudios, UniversalStudiosFlorida, 0, 'h');
  }

  lemma HollywoodStudiosNotInIslandsOfAdventure()
    ensures !IsSubstring(Lower(HollywoodStudios), Lower(IslandsOfAdventure))
  {
    NameLacksChar(HollywoodStudios, IslandsOfAdventure, 0, 'h');
  }

  lemma EpcotNotInMagicKingdom()
    ensures !IsSubstring(Lower(Epcot), Lower(MagicKingdom))
  {
    NameLacksChar(Epcot, MagicKingdom, 0, 'e');
  }

  lemma EpcotNotInAnimalKingdom()
    ensures !IsSubstring(Lower(Epcot), Lower(AnimalKingdom))
  {
    NameLacksChar(Epcot, AnimalKingdom, 0, 'e');
  }

  lemma EpcotNotInHollywoodStudios()
    ensures !IsSubstring(Lower(Epcot), Lower(HollywoodStudios))
  {
    NameLacksChar(Epcot, HollywoodStudios, 0, 'e');
  }

  lemma EpcotNotInUniversalStudiosFlorida()
    ensures !IsSubstring(Lower(Epcot), Lower(UniversalStudiosFlorida))
  {
    NameLacksChar(Epcot, UniversalStudiosFlorida, 1, 'p');
  }

  lemma EpcotNotInIslandsOfAdventure()
    ensures !IsSubstring(Lower(Epcot), Lower(IslandsOfAdventure))
  {
    NameLacksChar(Epcot, IslandsOfAdventure, 1, 'p');
  }

  lemma EpcotNotInVolcanoBay()
    ensures !IsSubstring(Lower(Epcot), Lower(VolcanoBay))
  {
    NameLacksChar(Epcot, VolcanoBay, 0, 'e');
  }

  lemma EpcotNotInSeaWorldOrlando()
    ensures !IsSubstring(Lower(Epcot), Lower(SeaWorldOrlando))
  {
    NameLacksChar(Epcot, SeaWorldOrlando, 1, 'p');
  }

  lemma VolcanoBayNotInMagicKingdom()
    ensures !IsSubstring(Lower(VolcanoBay), Lower(MagicKingdom))
  {
    NameLacksChar(VolcanoBay, MagicKingdom, 0, 'v');
  }

  lemma VolcanoBayNotInAnimalKingdom()
    ensures !IsSubstring(Lower(VolcanoBay), Lower(AnimalKingdom))
  {
    NameLacksChar(VolcanoBay, AnimalKingdom, 0, 'v');
  }

  lemma VolcanoBayNotInHollywoodStudios()
    ensures !IsSubstring(Lower(VolcanoBay), Lower(HollywoodStudios))
  {
    NameLacksChar(VolcanoBay, HollywoodStudios, 0, 'v');
  }

  lemma VolcanoBayNotInUniversalStudiosFlorida()
    ensures !IsSubstring(Lower(VolcanoBay), Lower(UniversalStudiosFlorida))
  {
    NameLacksChar(VolcanoBay, UniversalStudiosFlorida, 3, 'c');
  }

  lemma VolcanoBayNotInIslandsOfAdventure()
    ensures !IsSubstring(Lower(VolcanoBay), Lower(IslandsOfAdventure))
  {
    NameLacksChar(VolcanoBay, IslandsOfAdventure, 3, 'c');
  }

  lemma VolcanoBayNotInSeaWorldOrlando()
    ensures !IsSubstring(Lower(VolcanoBay), Lower(SeaWorldOrlando))
  {
    NameLacksChar(VolcanoBay, SeaWorldOrlando, 0, 'v');
  }

  lemma SeaWorldOrlandoNotInHollywoodStudios()
    ensures !IsSubstring(Lower(SeaWorldOrlando), Lower(HollywoodStudios))
  {
    NameLacksChar(SeaWorldOrlando, HollywoodStudios, 1, 'e');
  }

  lemma SeaWorldOrlandoNotInUniversalStudiosFlorida()
    ensures !IsSubstring(Lower(SeaWorldOrlando), Lower(UniversalStudiosFlorida))
  {
    NameLacksChar(SeaWorldOrlando, UniversalStudiosFlorida, 3, 'w');
  }

  lemma SeaWorldOrlandoNotInIslandsOfAdventure()
    ensures !IsSubstring(Lower(SeaWorldOrlando), Lower(IslandsOfAdventure))
  {
    NameLacksChar(SeaWorldOrlando, IslandsOfAdventure, 3, 'w');
  }

  /** "Magic Kingdom" occurs in no other park's name. */
  lemma NameNotInOthers0()
    ensures forall j :: 0 <= j < |Parks| && j != 0 ==>
              !IsSubstring(Lower(Parks[0].nome), Lower(Parks[j].nome))
  {
    ParkNames();
    forall j | 0 <= j < |Parks| && j != 0
      ensures !IsSubstring(Lower(Parks[0].nome), Lower(Parks[j].nome))
    {
      if j == 1 {
        MagicKingdomNotInAnimalKingdom();
      } else if j == 2 {
        MagicKingdomNotInHollywoodStudios();
      } else if j == 3 {
        LongerNotInside(Lower(MagicKingdom), Lower(Epcot));
      } else if j == 4 {
        MagicKingdomNotInUniversalStudiosFlorida();
      } else if j == 5 {
        MagicKingdomNotInIslandsOfAdventure();
      } else if j == 6 {
        LongerNotInside(Lower(MagicKingdom), Lower(VolcanoBay));
      } else {
        MagicKingdomNotInSeaWorldOrlando();
      }
    }
  }

  /** "Animal Kingdom" occurs in no other park's name. */
  lemma NameNotInOthers1()
    ensures forall j :: 0 <= j < |Parks| && j != 1 ==>
              !IsSubstring(Lower(Parks[1].nome), Lower(Parks[j].nome))
  {
    ParkNames();
    forall j | 0 <= j < |Parks| && j != 1
      ensures !IsSubstring(Lower(Parks[1].nome), Lower(Parks[j].nome))
    {
      if j == 0 {
        LongerNotInside(Lower(AnimalKingdom), Lower(MagicKingdom));
      } else if j == 2 {
        AnimalKingdomNotInHollywoodStudios();
      } else if j == 3 {
        LongerNotInside(Lower(AnimalKingdom), Lower(Epcot));
      } else if j == 4 {
        AnimalKingdomNotInUniversalStudiosFlorida();
      } else if j == 5 {
        AnimalKingdomNotInIslandsOfAdventure();
      } else if j == 6 {
        LongerNotInside(Lower(AnimalKingdom), Lower(VolcanoBay));
      } else {
        AnimalKingdomNotInSeaWorldOrlando();
      }
    }
  }

  /** "Hollywood Studios" occurs in no other park's name. */
  lemma NameNotInOthers2()
    ensures forall j :: 0 <= j < |Parks| && j != 2 ==>
              !IsSubstring(Lower(Parks[2].nome), Lower(Parks[j].nome))
  {
    ParkNames();
    forall j | 0 <= j < |Parks| && j != 2
      ensures !IsSubstring(Lower(Parks[2].nome), Lower(Parks[j].nome))
    {
      if j == 0 {
        LongerNotInside(Lower(HollywoodStudios), Lower(MagicKingdom));
      } else if j == 1 {
        LongerNotInside(Lower(HollywoodStudios), Lower(AnimalKingdom));
      } else if j == 3 {
        LongerNotInside(Lower(HollywoodStudios), Lower(Epcot));
      } else if j == 4 {
        HollywoodStudiosNotInUniversalStudiosFlorida();
      } else if j == 5 {
        HollywoodStudiosNotInIslandsOfAdventure();
      } else if j == 6 {
        LongerNotInside(Lower(HollywoodStudios), Lower(VolcanoBay));
      } else {
        LongerNotInside(Lower(HollywoodStudios), Lower(SeaWorldOrlando));
      }
    }
  }

  /** "Epcot" occurs in no other park's name. */
  lemma NameNotInOthers3()
    ensures forall j :: 0 <= j < |Parks| && j != 3 ==>
              !IsSubstring(Lower(Parks[3].nome), Lower(Parks[j].nome))
  {
    ParkNames();
    forall j | 0 <= j < |Parks| && j != 3
      ensures !IsSubstring(Lower(Parks[3].nome), Lower(Parks[j].nome))
    {
      if j == 0 {
        EpcotNotInMagicKingdom();
      } else if j == 1 {
        EpcotNotInAnimalKingdom();
      } else if j == 2 {
        EpcotNotInHollywoodStudios();
      } else if j == 4 {
        EpcotNotInUniversalStudiosFlorida();
      } else if j == 5 {
        EpcotNotInIslandsOfAdventure();
      } else if j == 6 {
        EpcotNotInVolcanoBay();
      } else {
        EpcotNotInSeaWorldOrlando();
      }
    }
  }

  /** "Universal Studios Florida" occurs in no other park's name. */
  lemma NameNotInOthers4()
    ensures forall j :: 0 <= j < |Parks| && j != 4 ==>
              !IsSubstring(Lower(Parks[4].nome), Lower(Parks[j].nome))
  {
    ParkNames();
    forall j | 0 <= j < |Parks| && j != 4
      ensures !IsSubstring(Lower(Parks[4].nome), Lower(Parks[j].nome))
    {
      if j == 0 {
        LongerNotInside(Lower(UniversalStudiosFlorida), Lower(MagicKingdom));
      } else if j == 1 {
        LongerNotInside(Lower(UniversalStudiosFlorida), Lower(AnimalKingdom));
      } else if j == 2 {
        LongerNotInside(Lower(UniversalStudiosFlorida), Lower(HollywoodStudios));
      } else if j == 3 {
        LongerNotInside(Lower(UniversalStudiosFlorida), Lower(Epcot));
      } else if j == 5 {
        LongerNotInside(Lower(UniversalStudiosFlorida), Lower(IslandsOfAdventure));
      } else if j == 6 {
        LongerNotInside(Lower(UniversalStudiosFlorida), Lower(VolcanoBay));
      } else {
        LongerNotInside(Lower(UniversalStudiosFlorida), Lower(SeaWorldOrlando));
      }
    }
  }

  /** "Islands of Adventure" occurs in no other park's name. */
  lemma NameNotInOthers5()
    ensures forall j :: 0 <= j < |Parks| && j != 5 ==>
              !IsSubstring(Lower(Parks[5].nome), Lower(Parks[j].nome))
  {
    ParkNames();
    forall j | 0 <= j < |Parks| && j != 5
      ensures !IsSubstring(Lower(Parks[5].nome), Lower(Parks[j].nome))
    {
      if j == 0 {
        LongerNotInside(Lower(IslandsOfAdventure), Lower(MagicKingdom));
      } else if j == 1 {
        LongerNotInside(Lower(IslandsOfAdventure), Lower(AnimalKingdom));
      } else if j == 2 {
        LongerNotInside(Lower(IslandsOfAdventure), Lower(HollywoodStudios));
      } else if j == 3 {
        LongerNotInside(Lower(IslandsOfAdventure), Lower(Epcot));
      } else if j == 4 {
        IslandsNotInUniversal();
      } else if j == 6 {
        LongerNotInside(Lower(IslandsOfAdventure), Lower(VolcanoBay));
      } else {
        LongerNotInside(Lower(IslandsOfAdventure), Lower(SeaWorldOrlando));
      }
    }
  }

  /** "Volcano Bay" occurs in no other park's name. */
  lemma NameNotInOthers6()
    ensures forall j :: 0 <= j < |Parks| && j != 6 ==>
              !IsSubstring(Lower(Parks[6].nome), Lower(Parks[j].nome))
  {
    ParkNames();
    forall j | 0 <= j < |Parks| && j != 6
      ensures !IsSubstring(Lower(Parks[6].nome), Lower(Parks[j].nome))
    {
      if j == 0 {
        VolcanoBayNotInMagicKingdom();
      } else if j == 1 {
        VolcanoBayNotInAnimalKingdom();
      } else if j == 2 {
        VolcanoBayNotInHollywoodStudios();
      } else if j == 3 {
        LongerNotInside(Lower(VolcanoBay), Lower(Epcot));
      } else if j == 4 {
        VolcanoBayNotInUniversalStudiosFlorida();
      } else if j == 5 {
        VolcanoBayNotInIslandsOfAdventure();
      } else {
        VolcanoBayNotInSeaWorldOrlando();
      }
    }
  }

  /** "SeaWorld Orlando" occurs in no other park's name. */
  lemma NameNotInOthers7()
    ensures forall j :: 0 <= j < |Parks| && j != 7 ==>
              !IsSubstring(Lower(Parks[7].nome), Lower(Parks[j].nome))
  {
    ParkNames();
    forall j | 0 <= j < |Parks| && j != 7
      ensures !IsSubstring(Lower(Parks[7].nome), Lower(Parks[j].nome))
    {
      if j == 0 {
        LongerNotInside(Lower(SeaWorldOrlando), Lower(MagicKingdom));
      } else if j == 1 {
        LongerNotInside(Lower(SeaWorldOrlando), Lower(AnimalKingdom));
      } else if j == 2 {
        SeaWorldOrlandoNotInHollywoodStudios();
      } else if j == 3 {
        LongerNotInside(Lower(SeaWorldOrlando), Lower(Epcot));
      } else if j == 4 {
        SeaWorldOrlandoNotInUniversalStudiosFlorida();
      } else if j == 5 {
        SeaWorldOrlandoNotInIslandsOfAdventure();
      } else {
        LongerNotInside(Lower(SeaWorldOrlando), Lower(VolcanoBay));
      }
    }
  }

  /** No lower-cased park name is a substring of another, so name matching is unambiguous. */
  lemma ParkNamesUnambiguous()
    ensures forall i, j :: 0 <= i < |Parks| && 0 <= j < |Parks| && i != j ==>
              !IsSubstring(Lower(Parks[i].nome), Lower(Parks[j].nome))
  {
    NameNotInOthers0(); NameNotInOthers1(); NameNotInOthers2(); NameNotInOthers3(); NameNotInOthers4(); NameNotInOthers5(); NameNotInOthers6(); NameNotInOthers7();
  }
}
