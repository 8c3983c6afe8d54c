/**
 The question generator of the coordinate quiz (`generateQuestion` in
 script.js). Every value the source takes from `Math.random` is an explicit
 field of `Draws`, so generating a question is a pure, total function of the
 language and the draws. Answer texts are modelled by the `Answer` datatype:
 the source compares formatted strings, and formatting is injective on the
 values that occur, so string equality becomes datatype equality.
 */
module Generator {
  import opened FisherYates

  datatype Language = English | Spanish

  /** The other display language. */
  function Flip(l: Language): (r: Language)
    ensures r != l
  {
    if l == English then Spanish else English
  }

  /** The five question templates, in the order of the template table. */
  datatype QuestionType = Identify | QuadrantQuestion | AxisQuestion | XCoordinate | YCoordinate

  const TemplateCount: nat := 5

  function TemplateType(i: int): QuestionType
    requires 0 <= i < TemplateCount
  {
    [Identify, QuadrantQuestion, AxisQuestion, XCoordinate, YCoordinate][i]
  }

  /** Where a question type sits in the template table: every type can be drawn. */
  function TemplateIndex(kind: QuestionType): (i: int)
    ensures 0 <= i < TemplateCount
    ensures TemplateType(i) == kind
  {
    match kind
    case Identify => 0
    case QuadrantQuestion => 1
    case AxisQuestion => 2
    case XCoordinate => 3
    case YCoordinate => 4
  }

  /** The template table lists each type once: looking up the type at index
      `i` and asking for its index gives `i` back. */
  lemma TemplateTableRoundTrip(i: int)
    requires 0 <= i < TemplateCount
    ensures TemplateIndex(TemplateType(i)) == i
  {
  }

  datatype Quadrant = QI | QII | QIII | QIV

  datatype Axis = XAxis | YAxis

  /** An answer choice. `Pair` is the text "(x, y)", `Num` the text of one
      integer; quadrant and axis names are localized labels. */
  datatype Answer =
    | Pair(px: int, py: int)
    | Num(n: int)
    | QuadrantName(qlang: Language, quadrant: Quadrant)
    | AxisName(alang: Language, axis: Axis)

  /** A generated question. The prompt and explanation texts are the template
      labels for `(lang, kind)`. */
  datatype Question = Question(
    kind: QuestionType,
    lang: Language,
    x: int,
    y: int,
    correct: Answer,
    answers: seq<Answer>)

  /** The values one call of `generateQuestion` draws from `Math.random`. */
  datatype Draws = Draws(
    template: int,     // template index, 0..4
    onYAxis: bool,     // axis questions: the first coin, true puts the point at x = 0
    raw1: int,         // first draw in 0..8: x, or the nonzero coordinate of an axis point
    raw2: int,         // second draw in 0..8: y of a point off the axes
    negateX: bool,     // coin deciding -1 or 1 when x is drawn as 0
    negateY: bool,     // coin deciding -1 or 1 when y is drawn as 0
    bumpUp: bool,      // coordinate questions: the off-by-one distractor is +1 (else -1)
    swaps: seq<int>)   // shuffle draws, swaps[i] in 0..i for i = 3, 2, 1

  /** The ranges `Math.random` guarantees for each draw. */
  predicate ValidDraws(d: Draws) {
    && 0 <= d.template < TemplateCount
    && 0 <= d.raw1 <= 8
    && 0 <= d.raw2 <= 8
    && ValidSwaps(d.swaps, 4)
  }

  /** The points a question of the given type may show: on exactly one axis
      for axis questions, off both axes otherwise, within the 9 by 9 grid. */
  predicate ValidPoint(kind: QuestionType, x: int, y: int) {
    && -4 <= x <= 4
    && -4 <= y <= 4
    && if kind == AxisQuestion then (x == 0) != (y == 0) else x != 0 && y != 0
  }

  /** A coordinate off the axis: the draw shifted to -4..4, a 0 replaced by
      -1 or 1 as the coin says. */
  function Coordinate(raw: int, negate: bool): (c: int)
    requires 0 <= raw <= 8
    ensures -4 <= c <= 4 && c != 0
    ensures raw != 4 ==> c == raw - 4
    ensures raw == 4 ==> (c == -1 <==> negate) && (c == 1 <==> !negate)
  {
    var c := raw - 4;
    if c == 0 then (if negate then -1 else 1) else c
  }

  /** The nonzero coordinate of an axis point: a drawn 0 always becomes 1. */
  function AxisCoordinate(raw: int): (c: int)
    requires 0 <= raw <= 8
    ensures -4 <= c <= 4 && c != 0
    ensures raw != 4 ==> c == raw - 4
    ensures raw == 4 ==> c == 1
  {
    var c := raw - 4;
    if c == 0 then 1 else c
  }

  /** The point of a question of type `kind`. */
  function Point(kind: QuestionType, d: Draws): (p: (int, int))
    requires ValidDraws(d)
    ensures ValidPoint(kind, p.0, p.1)
    ensures kind == AxisQuestion ==> (p.0 == 0 <==> d.onYAxis)
    ensures kind == AxisQuestion && d.raw1 == 4 ==> p == (0, 1) || p == (1, 0)
    ensures kind != AxisQuestion && d.raw1 != 4 ==> p.0 == d.raw1 - 4
    ensures kind != AxisQuestion && d.raw2 != 4 ==> p.1 == d.raw2 - 4
  {
    if kind == AxisQuestion then
      if d.onYAxis then (0, AxisCoordinate(d.raw1)) else (AxisCoordinate(d.raw1), 0)
    else
      (Coordinate(d.raw1, d.negateX), Coordinate(d.raw2, d.negateY))
  }

  /** The sign pattern of each quadrant. */
  predicate InQuadrant(q: Quadrant, x: int, y: int) {
    match q
    case QI => x > 0 && y > 0
    case QII => x < 0 && y > 0
    case QIII => x < 0 && y < 0
    case QIV => x > 0 && y < 0
  }

  /** The quadrant the source names for a point; the fall-through case is IV. */
  function QuadrantOf(x: int, y: int): (q: Quadrant)
    ensures x != 0 && y != 0 ==> InQuadrant(q, x, y)
    ensures forall q' :: InQuadrant(q', x, y) ==> q' == q
    ensures x != 0 && y != 0 ==> (q == QIV <==> x > 0 && y < 0)
  {
    if x > 0 && y > 0 then QI
    else if x < 0 && y > 0 then QII
    else if x < 0 && y < 0 then QIII
    else QIV
  }

  /** The four quadrant names in the order the source lists them. */
  function QuadrantNames(lang: Language): seq<Answer> {
    [QuadrantName(lang, QI), QuadrantName(lang, QII), QuadrantName(lang, QIII), QuadrantName(lang, QIV)]
  }

  /** `xs.filter(v' => v' !== v)`: every occurrence of `v` removed, order kept
      (see `WithoutConcat`). */
  function Without(xs: seq<Answer>, v: Answer): (r: seq<Answer>)
    ensures multiset(r) == multiset(xs)[v := 0]
    ensures |r| == |xs| - multiset(xs)[v]
    ensures forall u :: u in r <==> u in xs && u != v
  {
    if |xs| == 0 then []
    else
      assert xs == [xs[0]] + xs[1..];
      if xs[0] == v then Without(xs[1..], v) else [xs[0]] + Without(xs[1..], v)
  }

  /** The filter works element by element: filtering a concatenation is
      concatenating the filtered parts, so the kept elements keep their order. */
  lemma {:induction false} WithoutConcat(a: seq<Answer>, b: seq<Answer>, v: Answer)
    ensures Without(a + b, v) == Without(a, v) + Without(b, v)
    decreases |a|
  {
    if |a| == 0 {
      assert a + b == b;
    } else {
      assert (a + b)[0] == a[0];
      assert (a + b)[1..] == a[1..] + b;
      WithoutConcat(a[1..], b, v);
    }
  }

  /** The correct answer for a question of type `kind` about `(x, y)`: the
      pair, the quadrant whose sign pattern the point has, the axis holding
      the point, or the asked coordinate. */
  function CorrectAnswer(kind: QuestionType, lang: Language, x: int, y: int): (r: Answer)
    ensures kind == Identify ==> r == Pair(x, y)
    ensures kind == QuadrantQuestion ==>
              && r.QuadrantName? && r.qlang == lang
              && (x != 0 && y != 0 ==> InQuadrant(r.quadrant, x, y))
    ensures kind == AxisQuestion ==> r == AxisName(lang, if x == 0 then YAxis else XAxis)
    ensures kind == XCoordinate ==> r == Num(x)
    ensures kind == YCoordinate ==> r == Num(y)
  {
    match kind
    case Identify => Pair(x, y)
    case QuadrantQuestion => QuadrantName(lang, QuadrantOf(x, y))
    case AxisQuestion => AxisName(lang, if x == 0 then YAxis else XAxis)
    case XCoordinate => Num(x)
    case YCoordinate => Num(y)
  }

  /** The distractors of an axis question: the other axis and the two
      quadrants the source lists for it. */
  function AxisWrongAnswers(lang: Language, x: int): (w: seq<Answer>)
    ensures |w| == 3
    ensures AxisName(lang, if x == 0 then YAxis else XAxis) !in w
  {
    if x == 0 then [AxisName(lang, XAxis), QuadrantName(lang, QI), QuadrantName(lang, QIII)]
    else [AxisName(lang, YAxis), QuadrantName(lang, QII), QuadrantName(lang, QIV)]
  }

  /** The distractors the source builds for each type; always three of them,
      and for quadrant and axis questions never the correct answer. */
  function WrongAnswers(kind: QuestionType, lang: Language, x: int, y: int, bumpUp: bool): (w: seq<Answer>)
    ensures |w| == 3
    ensures kind == QuadrantQuestion || kind == AxisQuestion ==> CorrectAnswer(kind, lang, x, y) !in w
  {
    match kind
    case Identify => [Pair(y, x), Pair(-x, y), Pair(x, -y)]
    case QuadrantQuestion =>
      Without(QuadrantNames(lang), CorrectAnswer(kind, lang, x, y))
    case AxisQuestion => AxisWrongAnswers(lang, x)
    case XCoordinate => [Num(y), Num(-x), Num(x + (if bumpUp then 1 else -1))]
    case YCoordinate => [Num(x), Num(-y), Num(y + (if bumpUp then 1 else -1))]
  }

  /** The multiset `m` of choices fits a question of type `kind` about
      `(x, y)` whose correct answer is `c`. */
  predicate ChoicesFit(kind: QuestionType, lang: Language, x: int, y: int, c: Answer, m: multiset<Answer>) {
    match kind
    case Identify =>
      && c == Pair(x, y)
      && m == multiset{Pair(x, y), Pair(y, x), Pair(-x, y), Pair(x, -y)}
    case QuadrantQuestion =>
      && c.QuadrantName?
      && c.qlang == lang
      && InQuadrant(c.quadrant, x, y)
      && m == multiset(QuadrantNames(lang))
    case AxisQuestion =>
      && c == AxisName(lang, if x == 0 then YAxis else XAxis)
      && m[c] == 1
      && m == if x == 0 then
                multiset{AxisName(lang, YAxis), AxisName(lang, XAxis), QuadrantName(lang, QI), QuadrantName(lang, QIII)}
              else
                multiset{AxisName(lang, XAxis), AxisName(lang, YAxis), QuadrantName(lang, QII), QuadrantName(lang, QIV)}
    case XCoordinate =>
      && c == Num(x)
      && (|| m == multiset{Num(x), Num(y), Num(-x), Num(x + 1)}
          || m == multiset{Num(x), Num(y), Num(-x), Num(x - 1)})
    case YCoordinate =>
      && c == Num(y)
      && (|| m == multiset{Num(y), Num(x), Num(-y), Num(y + 1)}
          || m == multiset{Num(y), Num(x), Num(-y), Num(y - 1)})
  }

  /** What every generated question satisfies, independently of the draws:
      a valid point, four choices among which the correct answer, and the
      choices the question type calls for. */
  predicate WellFormed(q: Question) {
    && ValidPoint(q.kind, q.x, q.y)
    && |q.answers| == 4
    && q.correct in q.answers
    && ChoicesFit(q.kind, q.lang, q.x, q.y, q.correct, multiset(q.answers))
  }

  /** The correct answer followed by the first three distractors. */
  function BaseChoices(kind: QuestionType, lang: Language, x: int, y: int, bumpUp: bool): seq<Answer> {
    [CorrectAnswer(kind, lang, x, y)] + WrongAnswers(kind, lang, x, y, bumpUp)[..3]
  }

  /** The unshuffled choices are the correct answer and the three distractors. */
  lemma BaseChoicesSplit(kind: QuestionType, lang: Language, x: int, y: int, bumpUp: bool)
    ensures |BaseChoices(kind, lang, x, y, bumpUp)| == 4
    ensures multiset(BaseChoices(kind, lang, x, y, bumpUp))
            == multiset{CorrectAnswer(kind, lang, x, y)} + multiset(WrongAnswers(kind, lang, x, y, bumpUp))
  {
    var w := WrongAnswers(kind, lang, x, y, bumpUp);
    assert w[..3] == w;
  }

  /** Each quadrant name occurs once in the list of names. */
  lemma QuadrantNameOnce(lang: Language, q: Quadrant)
    ensures multiset(QuadrantNames(lang))[QuadrantName(lang, q)] == 1
  {
    assert QuadrantNames(lang)
        == [QuadrantName(lang, QI), QuadrantName(lang, QII), QuadrantName(lang, QIII), QuadrantName(lang, QIV)];
  }

  /** A multiset holding `c` once is `c` plus the rest. */
  lemma SplitOff(m: multiset<Answer>, c: Answer)
    requires m[c] == 1
    ensures m == multiset{c} + m[c := 0]
  {
  }

  /** Quadrant questions offer each quadrant name exactly once. */
  lemma QuadrantChoicesFit(lang: Language, x: int, y: int, bumpUp: bool)
    requires ValidPoint(QuadrantQuestion, x, y)
    ensures ChoicesFit(QuadrantQuestion, lang, x, y, CorrectAnswer(QuadrantQuestion, lang, x, y),
                       multiset(BaseChoices(QuadrantQuestion, lang, x, y, bumpUp)))
  {
    var c := CorrectAnswer(QuadrantQuestion, lang, x, y);
    QuadrantNameOnce(lang, QuadrantOf(x, y));
    BaseChoicesSplit(QuadrantQuestion, lang, x, y, bumpUp);
    SplitOff(multiset(QuadrantNames(lang)), c);
  }

  /** The choices of a point on the y-axis: both axes, I and III. */
  lemma YAxisChoices(lang: Language, y: int, bumpUp: bool)
    ensures multiset(BaseChoices(AxisQuestion, lang, 0, y, bumpUp))
         == multiset{AxisName(lang, YAxis), AxisName(lang, XAxis), QuadrantName(lang, QI), QuadrantName(lang, QIII)}
  {
    var w := AxisWrongAnswers(lang, 0);
    assert w[..3] == w;
    assert BaseChoices(AxisQuestion, lang, 0, y, bumpUp) == [AxisName(lang, YAxis)] + w;
  }

  /** The choices of a point on the x-axis: both axes, II and IV. */
  lemma XAxisChoices(lang: Language, x: int, y: int, bumpUp: bool)
    requires x != 0
    ensures multiset(BaseChoices(AxisQuestion, lang, x, y, bumpUp))
         == multiset{AxisName(lang, XAxis), AxisName(lang, YAxis), QuadrantName(lang, QII), QuadrantName(lang, QIV)}
  {
    var w := AxisWrongAnswers(lang, x);
    assert w[..3] == w;
    assert BaseChoices(AxisQuestion, lang, x, y, bumpUp) == [AxisName(lang, XAxis)] + w;
  }

  /** Axis questions offer the other axis and two quadrant fillers, and the
      correct axis exactly once. */
  lemma AxisChoicesFit(lang: Language, x: int, y: int, bumpUp: bool)
    requires ValidPoint(AxisQuestion, x, y)
    ensures ChoicesFit(AxisQuestion, lang, x, y, CorrectAnswer(AxisQuestion, lang, x, y),
                       multiset(BaseChoices(AxisQuestion, lang, x, y, bumpUp)))
  {
    if x == 0 {
      YAxisChoices(lang, y, bumpUp);
    } else {
      XAxisChoices(lang, x, y, bumpUp);
    }
  }

  /** Identify questions offer the swapped pair and the two sign flips. */
  lemma IdentifyChoicesFit(lang: Language, x: int, y: int, bumpUp: bool)
    requires ValidPoint(Identify, x, y)
    ensures ChoicesFit(Identify, lang, x, y, CorrectAnswer(Identify, lang, x, y),
                       multiset(BaseChoices(Identify, lang, x, y, bumpUp)))
  {
    assert BaseChoices(Identify, lang, x, y, bumpUp) == [Pair(x, y), Pair(y, x), Pair(-x, y), Pair(x, -y)];
  }

  /** x-coordinate questions offer y, the negation of x and x plus or minus one. */
  lemma XCoordinateChoicesFit(lang: Language, x: int, y: int, bumpUp: bool)
    requires ValidPoint(XCoordinate, x, y)
    ensures ChoicesFit(XCoordinate, lang, x, y, Num(x), multiset(BaseChoices(XCoordinate, lang, x, y, bumpUp)))
  {
    var delta := if bumpUp then 1 else -1;
    var b := [Num(x), Num(y), Num(-x), Num(x + delta)];
    assert BaseChoices(XCoordinate, lang, x, y, bumpUp) == b;
    assert multiset(b) == multiset{Num(x), Num(y), Num(-x), Num(x + delta)};
  }

  /** y-coordinate questions offer x, the negation of y and y plus or minus one. */
  lemma YCoordinateChoicesFit(lang: Language, x: int, y: int, bumpUp: bool)
    requires ValidPoint(YCoordinate, x, y)
    ensures ChoicesFit(YCoordinate, lang, x, y, Num(y), multiset(BaseChoices(YCoordinate, lang, x, y, bumpUp)))
  {
    var delta := if bumpUp then 1 else -1;
    var b := [Num(y), Num(x), Num(-y), Num(y + delta)];
    assert BaseChoices(YCoordinate, lang, x, y, bumpUp) == b;
    assert multiset(b) == multiset{Num(y), Num(x), Num(-y), Num(y + delta)};
  }

  /** Before shuffling, the choices already fit the question type. */
  lemma BaseChoicesFit(kind: QuestionType, lang: Language, x: int, y: int, bumpUp: bool)
    requires ValidPoint(kind, x, y)
    ensures |BaseChoices(kind, lang, x, y, bumpUp)| == 4
    ensures ChoicesFit(kind, lang, x, y, CorrectAnswer(kind, lang, x, y), multiset(BaseChoices(kind, lang, x, y, bumpUp)))
  {
    BaseChoicesSplit(kind, lang, x, y, bumpUp);
    match kind
    case QuadrantQuestion => QuadrantChoicesFit(lang, x, y, bumpUp);
    case AxisQuestion => AxisChoicesFit(lang, x, y, bumpUp);
    case Identify => IdentifyChoicesFit(lang, x, y, bumpUp);
    case XCoordinate => XCoordinateChoicesFit(lang, x, y, bumpUp);
    case YCoordinate => YCoordinateChoicesFit(lang, x, y, bumpUp);
  }

  /** `generateQuestion`: the template, the point, the correct answer and the
      first three distractors, the four choices shuffled. */
  function GenerateQuestion(lang: Language, d: Draws): (q: Question)
    requires ValidDraws(d)
    ensures q.kind == TemplateType(d.template)
    ensures q.lang == lang
    ensures WellFormed(q)
  {
    var kind := TemplateType(d.template);
    var p := Point(kind, d);
    var correct := CorrectAnswer(kind, lang, p.0, p.1);
    var choices := BaseChoices(kind, lang, p.0, p.1, d.bumpUp);
    BaseChoicesFit(kind, lang, p.0, p.1, d.bumpUp);
    var answers := Shuffle(choices, d.swaps);
    assert multiset(answers)[correct] > 0;
    Question(kind, lang, p.0, p.1, correct, answers)
  }

  /** Every point a question type allows is shown by some draws: the
      generator's points are exactly the valid ones. */
  lemma EveryValidPointIsDrawn(lang: Language, kind: QuestionType, x: int, y: int)
    requires ValidPoint(kind, x, y)
    ensures exists d :: ValidDraws(d) && GenerateQuestion(lang, d).kind == kind
                        && GenerateQuestion(lang, d).x == x && GenerateQuestion(lang, d).y == y
  {
    var swaps := [0, 0, 0, 0];
    var d :=
      if kind != AxisQuestion then Draws(TemplateIndex(kind), false, x + 4, y + 4, false, false, false, swaps)
      else if x == 0 then Draws(TemplateIndex(kind), true, y + 4, 4, false, false, false, swaps)
      else Draws(TemplateIndex(kind), false, x + 4, 4, false, false, false, swaps);
    assert ValidDraws(d);
    assert Point(kind, d) == (x, y);
  }

  /** Identify distractors are not filtered: on the diagonal the swapped pair
      is the correct pair again, so the correct text is offered twice. */
  lemma DiagonalIdentifyOffersCorrectTwice(lang: Language, d: Draws)
    requires ValidDraws(d) && TemplateType(d.template) == Identify
    requires Point(Identify, d).0 == Point(Identify, d).1
    ensures multiset(GenerateQuestion(lang, d).answers)[GenerateQuestion(lang, d).correct] == 2
  {
    var q := GenerateQuestion(lang, d);
    assert Pair(-q.x, q.y) != q.correct && Pair(q.x, -q.y) != q.correct;
  }
}
