/**
 * The personality quiz: five radio answers add points to a five-axis score
 * table, a stable descending sort of the table picks the two leading axes,
 * and the pair (or, failing that, the leading axis alone) names the
 * character shown.
 */
module Quiz {

  import opened Wrappers
  import Dashboard

  datatype Axis = Calme | Energique | Strategique | Protecteur | Leader

  /** The order in which the `scores` dictionary was built, which is the order of its items. */
  const Axes: seq<Axis> := [Calme, Energique, Strategique, Protecteur, Leader]

  function Rank(a: Axis): (n: nat)
    ensures n < |Axes| && Axes[n] == a
  {
    match a
    case Calme => 0
    case Energique => 1
    case Strategique => 2
    case Protecteur => 3
    case Leader => 4
  }

  /** The `scores` dictionary: one integer per axis. */
  datatype Scores = Scores(calme: int, energique: int, strategique: int, protecteur: int, leader: int)
  {
    /** `scores[a]` */
    function Get(a: Axis): int {
      match a
      case Calme => calme
      case Energique => energique
      case Strategique => strategique
      case Protecteur => protecteur
      case Leader => leader
    }

    /** `scores[a] += n` */
    function Add(a: Axis, n: int): Scores {
      match a
      case Calme => this.(calme := calme + n)
      case Energique => this.(energique := energique + n)
      case Strategique => this.(strategique := strategique + n)
      case Protecteur => this.(protecteur := protecteur + n)
      case Leader => this.(leader := leader + n)
    }

    /** Axis by axis addition. */
    function Plus(g: Scores): Scores {
      Scores(calme + g.calme, energique + g.energique, strategique + g.strategique,
             protecteur + g.protecteur, leader + g.leader)
    }

    predicate NonNegative() {
      calme >= 0 && energique >= 0 && strategique >= 0 && protecteur >= 0 && leader >= 0
    }

    /** The sum over all five axes. */
    function Total(): int {
      calme + energique + strategique + protecteur + leader
    }
  }

  /** The table before any answer: 0 on every axis. */
  const Zero: Scores := Scores(0, 0, 0, 0, 0)

  // ---------------------------------------------------------------------
  // Questions and the points they award (1_quiz.py:50-140)
  // ---------------------------------------------------------------------

  datatype Question = Q1 | Q2 | Q3 | Q4 | Q5

  // The options of question 1
  const ObservateurDiscret: string := "Observateur et discret"
  const MeneurNaturel: string := "Meneur naturel"
  const MotiveToutLeMonde: string := "Celui qui motive tout le monde"
  const AnalyseLaSituation: string := "Celui qui analyse la situation"

  // The options of question 2
  const ReflechirSeul: string := "R\U{E9}fl\U{E9}chir seul"
  const AgirImmediatement: string := "Agir imm\U{E9}diatement"
  const ProtegerLesAutres: string := "Prot\U{E9}ger les autres"
  const MeilleureStrategie: string := "Trouver la meilleure strat\U{E9}gie"

  // The options of question 3
  const SangFroid: string := "Ton sang-froid"
  const Intelligence: string := "Ton intelligence"
  const Loyaute: string := "Ta loyaut\U{E9}"
  const Charisme: string := "Ton charisme"

  // The options of question 4
  const SupportDiscret: string := "Support discret"
  const ChefDEquipe: string := "Chef d\U{2019}\U{E9}quipe"
  const BouclierDuGroupe: string := "Bouclier du groupe"
  const CerveauDeLEquipe: string := "Cerveau de l\U{2019}\U{E9}quipe"

  // The options of question 5
  const PoseEtReflechi: string := "Pos\U{E9} et r\U{E9}fl\U{E9}chi"
  const PassionneEtIntense: string := "Passionn\U{E9} et intense"
  const ResponsableEtFiable: string := "Responsable et fiable"
  const AmbitieuxEtDetermine: string := "Ambitieux et d\U{E9}termin\U{E9}"

  /** The options each radio offers, in their order. */
  function Options(q: Question): seq<string> {
    match q
    case Q1 => [ObservateurDiscret, MeneurNaturel, MotiveToutLeMonde, AnalyseLaSituation]
    case Q2 => [ReflechirSeul, AgirImmediatement, ProtegerLesAutres, MeilleureStrategie]
    case Q3 => [SangFroid, Intelligence, Loyaute, Charisme]
    case Q4 => [SupportDiscret, ChefDEquipe, BouclierDuGroupe, CerveauDeLEquipe]
    case Q5 => [PoseEtReflechi, PassionneEtIntense, ResponsableEtFiable, AmbitieuxEtDetermine]
  }

  /**
   * What answering `answer` to `q` adds to each axis. An answer outside the
   * question's options adds nothing; every listed answer adds 2 points,
   * except "Support discret" on the fourth question, which adds 1.
   */
  function Gain(q: Question, answer: string): (g: Scores)
    ensures g.NonNegative()
  {
    match q
    case Q1 =>
      if answer == ObservateurDiscret then Scores(2, 0, 0, 0, 0)
      else if answer == MeneurNaturel then Scores(0, 0, 0, 0, 2)
      else if answer == MotiveToutLeMonde then Scores(0, 2, 0, 0, 0)
      else if answer == AnalyseLaSituation then Scores(0, 0, 2, 0, 0)
      else Zero
    case Q2 =>
      if answer == ReflechirSeul then Scores(1, 0, 1, 0, 0)
      else if answer == AgirImmediatement then Scores(0, 2, 0, 0, 0)
      else if answer == ProtegerLesAutres then Scores(0, 0, 0, 2, 0)
      else if answer == MeilleureStrategie then Scores(0, 0, 2, 0, 0)
      else Zero
    case Q3 =>
      if answer == SangFroid then Scores(2, 0, 0, 0, 0)
      else if answer == Intelligence then Scores(0, 0, 2, 0, 0)
      else if answer == Loyaute then Scores(0, 0, 0, 2, 0)
      else if answer == Charisme then Scores(0, 0, 0, 0, 2)
      else Zero
    case Q4 =>
      if answer == SupportDiscret then Scores(1, 0, 0, 0, 0)
      else if answer == ChefDEquipe then Scores(0, 0, 0, 0, 2)
      else if answer == BouclierDuGroupe then Scores(0, 0, 0, 2, 0)
      else if answer == CerveauDeLEquipe then Scores(0, 0, 2, 0, 0)
      else Zero
    case Q5 =>
      if answer == PoseEtReflechi then Scores(2, 0, 0, 0, 0)
      else if answer == PassionneEtIntense then Scores(0, 2, 0, 0, 0)
      else if answer == ResponsableEtFiable then Scores(0, 0, 0, 2, 0)
      else if answer == AmbitieuxEtDetermine then Scores(0, 0, 0, 0, 2)
      else Zero
  }

  /** A listed answer is worth 2 points in all, except "Support discret" on the fourth question, worth 1. */
  lemma GainTotal(q: Question, answer: string)
    requires answer in Options(q)
    ensures Gain(q, answer).Total() == if q == Q4 && answer == SupportDiscret then 1 else 2
  {
    match q {
      case Q1 => GainTotalQ1(answer);
      case Q2 => GainTotalQ2(answer);
      case Q3 => GainTotalQ3(answer);
      case Q4 => GainTotalQ4(answer);
      case Q5 => GainTotalQ5(answer);
    }
  }

  lemma GainTotalQ1(answer: string)
    requires answer in Options(Q1)
    ensures Gain(Q1, answer).Total() == 2
  {
    if answer == ObservateurDiscret {
    } else if answer == MeneurNaturel {
    } else if answer == MotiveToutLeMonde {
    } else {
      assert answer == AnalyseLaSituation;
    }
  }

  lemma GainTotalQ2(answer: string)
    requires answer in Options(Q2)
    ensures Gain(Q2, answer).Total() == 2
  {
    if answer == ReflechirSeul {
      assert Gain(Q2, answer) == Scores(1, 0, 1, 0, 0);
    } else if answer == AgirImmediatement {
    } else if answer == ProtegerLesAutres {
    } else {
      assert answer == MeilleureStrategie;
    }
  }

  lemma GainTotalQ3(answer: string)
    requires answer in Options(Q3)
    ensures Gain(Q3, answer).Total() == 2
  {
    if answer == SangFroid {
    } else if answer == Intelligence {
    } else if answer == Loyaute {
    } else {
      assert answer == Charisme;
    }
  }

  lemma GainTotalQ4(answer: string)
    requires answer in Options(Q4)
    ensures Gain(Q4, answer).Total() == if answer == SupportDiscret then 1 else 2
  {
    if answer == SupportDiscret {
    } else if answer == ChefDEquipe {
    } else if answer == BouclierDuGroupe {
    } else {
      assert answer == CerveauDeLEquipe;
    }
  }

  lemma GainTotalQ5(answer: string)
    requires answer in Options(Q5)
    ensures Gain(Q5, answer).Total() == 2
  {
    if answer == PoseEtReflechi {
    } else if answer == PassionneEtIntense {
    } else if answer == ResponsableEtFiable {
    } else {
      assert answer == AmbitieuxEtDetermine;
    }
  }

  /** Question 1's `if`/`elif` chain, applied to the table. */
  method AnswerQ1(scores: Scores, answer: string) returns (after: Scores)
    ensures after == scores.Plus(Gain(Q1, answer))
  {
    after := scores;
    if answer == ObservateurDiscret { after := after.Add(Calme, 2); }
    else if answer == MeneurNaturel { after := after.Add(Leader, 2); }
    else if answer == MotiveToutLeMonde { after := after.Add(Energique, 2); }
    else if answer == AnalyseLaSituation { after := after.Add(Strategique, 2); }
  }

  /** Question 2's `if`/`elif` chain, applied to the table. */
  method AnswerQ2(scores: Scores, answer: string) returns (after: Scores)
    ensures after == scores.Plus(Gain(Q2, answer))
  {
    after := scores;
    if answer == ReflechirSeul {
      after := after.Add(Calme, 1);
      after := after.Add(Strategique, 1);
    }
    else if answer == AgirImmediatement { after := after.Add(Energique, 2); }
    else if answer == ProtegerLesAutres { after := after.Add(Protecteur, 2); }
    else if answer == MeilleureStrategie { after := after.Add(Strategique, 2); }
  }

  /** Question 3's `if`/`elif` chain, applied to the table. */
  method AnswerQ3(scores: Scores, answer: string) returns (after: Scores)
    ensures after == scores.Plus(Gain(Q3, answer))
  {
    after := scores;
    if answer == SangFroid { after := after.Add(Calme, 2); }
    else if answer == Intelligence { after := after.Add(Strategique, 2); }
    else if answer == Loyaute { after := after.Add(Protecteur, 2); }
    else if answer == Charisme { after := after.Add(Leader, 2); }
  }

  /** Question 4's `if`/`elif` chain, applied to the table. */
  method AnswerQ4(scores: Scores, answer: string) returns (after: Scores)
    ensures after == scores.Plus(Gain(Q4, answer))
  {
    after := scores;
    if answer == SupportDiscret { after := after.Add(Calme, 1); }
    else if answer == ChefDEquipe { after := after.Add(Leader, 2); }
    else if answer == BouclierDuGroupe { after := after.Add(Protecteur, 2); }
    else if answer == CerveauDeLEquipe { after := after.Add(Strategique, 2); }
  }

  /** Question 5's `if`/`elif` chain, applied to the table. */
  method AnswerQ5(scores: Scores, answer: string) returns (after: Scores)
    ensures after == scores.Plus(Gain(Q5, answer))
  {
    after := scores;
    if answer == PoseEtReflechi { after := after.Add(Calme, 2); }
    else if answer == PassionneEtIntense { after := after.Add(Energique, 2); }
    else if answer == ResponsableEtFiable { after := after.Add(Protecteur, 2); }
    else if answer == AmbitieuxEtDetermine { after := after.Add(Leader, 2); }
  }

  /** The five radio values. */
  datatype Answers = Answers(q1: string, q2: string, q3: string, q4: string, q5: string)

  predicate AllListed(ans: Answers) {
    && ans.q1 in Options(Q1) && ans.q2 in Options(Q2) && ans.q3 in Options(Q3)
    && ans.q4 in Options(Q4) && ans.q5 in Options(Q5)
  }

  /**
   * The table after the five questions, each adding its gain to a table of
   * zeros: never below 0 on any axis, and 10 points in all (9 when the
   * fourth answer is "Support discret") when every answer is one of the
   * options.
   */
  function Tallied(ans: Answers): (s: Scores)
    ensures s.NonNegative()
    ensures AllListed(ans) ==> s.Total() == if ans.q4 == SupportDiscret then 9 else 10
  {
    var g1, g2, g3, g4, g5 := Gain(Q1, ans.q1), Gain(Q2, ans.q2), Gain(Q3, ans.q3), Gain(Q4, ans.q4), Gain(Q5, ans.q5);
    var s := Zero.Plus(g1).Plus(g2).Plus(g3).Plus(g4).Plus(g5);
    assert s.Total() == g1.Total() + g2.Total() + g3.Total() + g4.Total() + g5.Total();
    assert AllListed(ans) ==> s.Total() == if ans.q4 == SupportDiscret then 9 else 10 by {
      if AllListed(ans) {
        GainTotal(Q1, ans.q1);
        GainTotal(Q2, ans.q2);
        GainTotal(Q3, ans.q3);
        GainTotal(Q4, ans.q4);
        GainTotal(Q5, ans.q5);
      }
    }
    s
  }

  /** The five `if`/`elif` chains run in turn on `scores`, which starts at 0 on every axis. */
  method TakeQuiz(ans: Answers) returns (scores: Scores)
    ensures scores == Tallied(ans)
    ensures scores.NonNegative()
  {
    scores := Zero;
    scores := AnswerQ1(scores, ans.q1);
    scores := AnswerQ2(scores, ans.q2);
    scores := AnswerQ3(scores, ans.q3);
    scores := AnswerQ4(scores, ans.q4);
    scores := AnswerQ5(scores, ans.q5);
  }

  /** An answer outside a question's options leaves every score as it was. */
  lemma UnlistedAnswerChangesNothing(scores: Scores, q: Question, answer: string)
    requires answer !in Options(q)
    ensures Gain(q, answer) == Zero
    ensures scores.Plus(Gain(q, answer)) == scores
  {
    match q {
      case Q1 =>
      case Q2 =>
      case Q3 =>
      case Q4 =>
      case Q5 =>
    }
  }

  // ---------------------------------------------------------------------
  // The two leading axes (1_quiz.py:144-145)
  // ---------------------------------------------------------------------

  /** An entry of `scores.items()`: the axis, its score and its place in the dictionary. */
  datatype Item = Item(axis: Axis, score: int, position: nat)

  /** `scores.items()`, in the dictionary's order. */
  function Items(s: Scores): (items: seq<Item>)
    ensures |items| == 5
    ensures forall i :: 0 <= i < 5 ==> items[i].position == i
    ensures forall it :: it in items ==> it.score == s.Get(it.axis) && it.position == Rank(it.axis)
    ensures forall a: Axis :: items[Rank(a)].axis == a
  {
    [Item(Calme, s.calme, 0), Item(Energique, s.energique, 1), Item(Strategique, s.strategique, 2),
     Item(Protecteur, s.protecteur, 3), Item(Leader, s.leader, 4)]
  }

  /**
   * `x` comes before `y` in `sorted(items, key=lambda x: x[1], reverse=True)`:
   * a higher score, or the same score and an earlier original place (the
   * sort is stable).
   */
  predicate Before(x: Item, y: Item) {
    x.score > y.score || (x.score == y.score && x.position < y.position)
  }

  predicate Ordered(t: seq<Item>) {
    forall i, j :: 0 <= i < j < |t| ==> Before(t[i], t[j])
  }

  /** The items have pairwise distinct places. */
  predicate DistinctPlaces(t: seq<Item>) {
    forall i, j :: 0 <= i < j < |t| ==> t[i].position != t[j].position
  }

  function Insert(x: Item, t: seq<Item>): (r: seq<Item>)
    requires Ordered(t) && forall y :: y in t ==> y.position != x.position
    ensures Ordered(r)
    ensures multiset(r) == multiset(t) + multiset{x}
  {
    if t == [] then [x]
    else if Before(x, t[0]) then [x] + t
    else
      assert Before(t[0], x);
      var tail := t[1..];
      assert t == [t[0]] + tail;
      var rest := Insert(x, tail);
      forall y | y in rest ensures Before(t[0], y) {
        assert y in multiset(rest);
        if y != x {
          assert y in multiset(tail);
        }
      }
      var r := [t[0]] + rest;
      assert forall j :: 0 < j < |r| ==> r[j] == rest[j - 1];
      r
  }

  /** The stable descending sort of `items` by score (insertion sort). */
  function SortDescending(items: seq<Item>): (r: seq<Item>)
    requires DistinctPlaces(items)
    ensures Ordered(r)
    ensures multiset(r) == multiset(items)
  {
    if items == [] then []
    else
      var init := items[..|items| - 1];
      var x := items[|items| - 1];
      assert items == init + [x];
      var sorted := SortDescending(init);
      forall y | y in sorted ensures y.position != x.position {
        assert y in multiset(init);
      }
      Insert(x, sorted)
  }

  /** The sorted items are the five items of the table, one per axis. */
  lemma SortedItems(s: Scores, sorted: seq<Item>)
    requires multiset(sorted) == multiset(Items(s))
    ensures |sorted| == 5
    ensures forall it :: it in sorted ==> it.score == s.Get(it.axis) && it.position == Rank(it.axis)
    ensures forall a: Axis :: Items(s)[Rank(a)] in sorted
  {
    var items := Items(s);
    assert |sorted| == |multiset(sorted)|;
    forall it | it in sorted ensures it in items {
      assert it in multiset(items);
    }
    forall a: Axis ensures items[Rank(a)] in sorted {
      assert items[Rank(a)] in multiset(sorted);
    }
  }

  /** `a` comes before `b` in the sort: a higher score, or a tie and an earlier place in the dictionary. */
  predicate Ahead(s: Scores, a: Axis, b: Axis) {
    s.Get(a) > s.Get(b) || (s.Get(a) == s.Get(b) && Rank(a) < Rank(b))
  }

  lemma BeforeIsAhead(s: Scores, x: Item, y: Item)
    requires x.score == s.Get(x.axis) && x.position == Rank(x.axis)
    requires y.score == s.Get(y.axis) && y.position == Rank(y.axis)
    requires Before(x, y)
    ensures Ahead(s, x.axis, y.axis)
  {
  }

  /** The first two of the sorted items come ahead of the rest. */
  lemma LeadersOfSorted(s: Scores, sorted: seq<Item>)
    requires Ordered(sorted) && |sorted| == 5
    requires forall it :: it in sorted ==> it.score == s.Get(it.axis) && it.position == Rank(it.axis)
    requires forall a: Axis :: Items(s)[Rank(a)] in sorted
    ensures sorted[0].axis != sorted[1].axis
    ensures forall a: Axis :: a != sorted[0].axis ==> Ahead(s, sorted[0].axis, a)
    ensures forall a: Axis :: a != sorted[0].axis && a != sorted[1].axis ==> Ahead(s, sorted[1].axis, a)
  {
    var items := Items(s);
    assert sorted[0] in sorted && sorted[1] in sorted;
    forall a: Axis | a != sorted[0].axis ensures Ahead(s, sorted[0].axis, a) {
      var j :| 0 <= j < |sorted| && sorted[j] == items[Rank(a)];
      assert sorted[j].axis == a;
      BeforeIsAhead(s, sorted[0], sorted[j]);
    }
    forall a: Axis | a != sorted[0].axis && a != sorted[1].axis ensures Ahead(s, sorted[1].axis, a) {
      var j :| 0 <= j < |sorted| && sorted[j] == items[Rank(a)];
      assert sorted[j].axis == a;
      BeforeIsAhead(s, sorted[1], sorted[j]);
    }
  }

  /**
   * `top_axes`: two distinct axes; the first comes ahead of every other
   * axis, the second ahead of every axis but the first.
   */
  function TopAxes(s: Scores): (top: (Axis, Axis))
    ensures top.0 != top.1
    ensures forall a: Axis :: a != top.0 ==> Ahead(s, top.0, a)
    ensures forall a: Axis :: a != top.0 && a != top.1 ==> Ahead(s, top.1, a)
  {
    var sorted := SortDescending(Items(s));
    SortedItems(s, sorted);
    LeadersOfSorted(s, sorted);
    (sorted[0].axis, sorted[1].axis)
  }

  /**
   * In scores: the first axis scores at least as much as the second, and
   * the second at least as much as every other axis.
   */
  lemma TopAxesScores(s: Scores)
    ensures var top := TopAxes(s);
      s.Get(top.0) >= s.Get(top.1) && forall a: Axis :: a != top.0 ==> s.Get(top.1) >= s.Get(a)
  {
    var top := TopAxes(s);
    assert Ahead(s, top.0, top.1);
    forall a: Axis | a != top.0 ensures s.Get(top.1) >= s.Get(a) {
      if a != top.1 {
        assert Ahead(s, top.1, a);
      }
    }
  }

  /** With every score equal, the dictionary's first two axes win. */
  lemma TiesFollowDictionaryOrder(s: Scores)
    requires forall a: Axis :: s.Get(a) == s.Get(Calme)
    ensures TopAxes(s) == (Calme, Energique)
  {
    var top := TopAxes(s);
    assert top.0 == Calme || Ahead(s, top.0, Calme);
    assert top.1 == Energique || top.1 == Calme || Ahead(s, top.1, Energique);
  }

  // ---------------------------------------------------------------------
  // The character (1_quiz.py:147-177)
  // ---------------------------------------------------------------------

  /** `profil_to_character` */
  const Profiles: map<(Axis, Axis), string> := map[
    (Calme, Strategique) := "Johan Liebert",
    (Calme, Protecteur) := "Yasushi Takagi",
    (Calme, Leader) := "Manjiro Sano",
    (Energique, Leader) := "Vegeta",
    (Energique, Protecteur) := "Yato",
    (Energique, Strategique) := "Senku Ishigami",
    (Leader, Protecteur) := "Misaki Ayuzawa",
    (Leader, Strategique) := "Askeladd",
    (Strategique, Protecteur) := "Ayane Yano",
    (Calme, Energique) := "Gintoki Sakata",
    (Protecteur, Calme) := "Kyo Sohma",
    (Leader, Calme) := "Daichi Sawamura",
    (Strategique, Energique) := "Shinichi Kudo",
    (Protecteur, Energique) := "Korosensei",
    (Leader, Energique) := "Momo Ayase"]

  /** `fallback_by_axis` */
  const Fallback: map<Axis, string> := map[
    Calme := "Johan Liebert",
    Energique := "Vegeta",
    Strategique := "Senku Ishigami",
    Protecteur := "Korosensei",
    Leader := "Manjiro Sano"]

  lemma FallbackCoversAxes(a: Axis)
    ensures a in Fallback
  {
    match a {
      case Calme =>
      case Energique =>
      case Strategique =>
      case Protecteur =>
      case Leader =>
    }
  }

  /**
   * `character_name`: the pair's entry when the pair is in the profile
   * table, otherwise the leading axis's fallback. A name is always found,
   * and it is one listed in one of the two tables.
   */
  function CharacterFor(top: (Axis, Axis)): (name: Option<string>)
    ensures name.Some?
    ensures top in Profiles ==> name.value == Profiles[top]
    ensures top !in Profiles ==> top.0 in Fallback && name.value == Fallback[top.0]
    ensures name.value in Profiles.Values || name.value in Fallback.Values
  {
    FallbackCoversAxes(top.0);
    var byPair := if top in Profiles then Some(Profiles[top]) else None;
    if byPair.None? then
      if top.0 in Fallback then Some(Fallback[top.0]) else None
    else byPair
  }

  /** Exactly five ordered pairs of distinct axes go to the fallback table. */
  lemma FallbackPairs(x: Axis, y: Axis)
    requires x != y
    ensures (x, y) !in Profiles <==>
      (x, y) in {(Energique, Calme), (Strategique, Calme), (Strategique, Leader), (Protecteur, Strategique), (Protecteur, Leader)}
  {
  }

  /**
   * `df[df["name"] == character_name].iloc[0]`: the first row of the table
   * with that name; `None` where the page raises `IndexError` because no
   * row has it.
   */
  function Pick(rows: seq<Dashboard.DbRow>, name: string): (r: Option<Dashboard.DbRow>)
    ensures r.None? <==> forall i :: 0 <= i < |rows| ==> rows[i].name != Some(name)
    ensures r.Some? ==> exists i :: && 0 <= i < |rows| && rows[i] == r.value && r.value.name == Some(name)
                                    && forall j :: 0 <= j < i ==> rows[j].name != Some(name)
  {
    if rows == [] then None
    else if rows[0].name == Some(name) then Some(rows[0])
    else
      var r := Pick(rows[1..], name);
      assert forall i :: 1 <= i < |rows| ==> rows[i] == rows[1..][i - 1];
      r
  }

  /** The page's result: the character for the answers' two leading axes, looked up in the table. */
  method Result(rows: seq<Dashboard.DbRow>, ans: Answers) returns (character: Option<Dashboard.DbRow>)
    ensures character == Pick(rows, CharacterFor(TopAxes(Tallied(ans))).value)
    ensures character.Some? ==>
      && character.value in rows && character.value.name.Some?
      && (character.value.name.value in Profiles.Values || character.value.name.value in Fallback.Values)
  {
    var scores := TakeQuiz(ans);
    var name := CharacterFor(TopAxes(scores));
    character := Pick(rows, name.value);
  }
}
