/** The fixed SCARF question table: twelve questions, each tagged with one of
    the five SCARF domains and offering five answers whose score encodes the
    threat level (1 = none, 5 = severe), plus its two queries. */
module ScarfQuestions {

  /** The five literals a question's `domain` may take, in declaration order. */
  datatype Domain = Status | Certainty | Autonomy | Relatedness | Fairness

  /** The string tag of a domain, as it is written in the table. */
  function DomainName(d: Domain): string
  {
    match d
    case Status => "status"
    case Certainty => "certainty"
    case Autonomy => "autonomy"
    case Relatedness => "relatedness"
    case Fairness => "fairness"
  }

  const AllDomains: seq<Domain> := [Status, Certainty, Autonomy, Relatedness, Fairness]

  datatype Answer = Answer(id: string, text: string, score: int)

  datatype Question = Question(id: int, domain: Domain, text: string, context: string, answers: seq<Answer>)

  /** The question table: id, domain tag, prompt, context line and five answers each. */
  const ScarfQuestionTable: seq<Question> := [
    Question1, Question2, Question3, Question4, Question5, Question6,
    Question7, Question8, Question9, Question10, Question11, Question12
  ]

  const Question1: Question :=
    Question(1, Status,
      "갈등 당사자가 자신의 전문성이나 경험이 무시당한다고 느끼나요?",
      "위상(Status) 위협 평가", [
      Answer("1a", "전혀 그렇지 않다 - 상대방의 전문성이 충분히 인정받고 있다", 1),
      Answer("1b", "약간 그렇다 - 가끔 인정받지 못한다고 느낄 수 있다", 2),
      Answer("1c", "보통이다 - 때때로 무시당한다고 느끼는 것 같다", 3),
      Answer("1d", "많이 그렇다 - 자주 자신의 가치가 폄하된다고 느낀다", 4),
      Answer("1e", "매우 그렇다 - 심각하게 무시당하고 있다고 느낀다", 5)])

  const Question2: Question :=
    Question(2, Status,
      "당사자 간에 지위나 권한의 불균형이 갈등에 영향을 주고 있나요?",
      "위상(Status) 위협 평가", [
      Answer("2a", "전혀 그렇지 않다 - 동등한 입장에서 대화하고 있다", 1),
      Answer("2b", "약간 그렇다 - 미미한 권한 차이가 있다", 2),
      Answer("2c", "보통이다 - 어느 정도 지위 차이가 느껴진다", 3),
      Answer("2d", "많이 그렇다 - 명확한 권한 불균형이 있다", 4),
      Answer("2e", "매우 그렇다 - 심각한 지위 격차가 갈등의 핵심이다", 5)])

  const Question3: Question :=
    Question(3, Certainty,
      "상황의 불확실성이 당사자들의 불안을 높이고 있나요?",
      "확실성(Certainty) 위협 평가", [
      Answer("3a", "전혀 그렇지 않다 - 상황이 명확하고 예측 가능하다", 1),
      Answer("3b", "약간 그렇다 - 약간의 불확실성이 있다", 2),
      Answer("3c", "보통이다 - 불확실한 요소들이 있다", 3),
      Answer("3d", "많이 그렇다 - 상당한 불확실성으로 불안해하고 있다", 4),
      Answer("3e", "매우 그렇다 - 극심한 불확실성이 주요 스트레스 원인이다", 5)])

  const Question4: Question :=
    Question(4, Certainty,
      "앞으로의 진행 방향이나 결과에 대한 정보가 부족한가요?",
      "확실성(Certainty) 위협 평가", [
      Answer("4a", "전혀 그렇지 않다 - 충분한 정보가 공유되고 있다", 1),
      Answer("4b", "약간 그렇다 - 일부 정보가 부족하다", 2),
      Answer("4c", "보통이다 - 필요한 정보의 절반 정도만 있다", 3),
      Answer("4d", "많이 그렇다 - 중요한 정보가 많이 부족하다", 4),
      Answer("4e", "매우 그렇다 - 거의 아무 정보도 없는 상태이다", 5)])

  const Question5: Question :=
    Question(5, Certainty,
      "변화의 속도나 범위가 당사자들을 압도하고 있나요?",
      "확실성(Certainty) 위협 평가", [
      Answer("5a", "전혀 그렇지 않다 - 변화가 관리 가능한 수준이다", 1),
      Answer("5b", "약간 그렇다 - 변화가 조금 빠르게 느껴진다", 2),
      Answer("5c", "보통이다 - 변화에 적응하기 위해 노력이 필요하다", 3),
      Answer("5d", "많이 그렇다 - 변화가 너무 빠르고 광범위하다", 4),
      Answer("5e", "매우 그렇다 - 변화에 완전히 압도당하고 있다", 5)])

  const Question6: Question :=
    Question(6, Autonomy,
      "당사자가 자신의 선택권이나 통제력이 제한되었다고 느끼나요?",
      "자율성(Autonomy) 위협 평가", [
      Answer("6a", "전혀 그렇지 않다 - 충분한 선택권과 통제력이 있다", 1),
      Answer("6b", "약간 그렇다 - 일부 제한이 있다고 느낀다", 2),
      Answer("6c", "보통이다 - 어느 정도 제약을 받고 있다", 3),
      Answer("6d", "많이 그렇다 - 선택권이 많이 제한되어 있다", 4),
      Answer("6e", "매우 그렇다 - 거의 아무런 통제력이 없다고 느낀다", 5)])

  // Questions 7 and 12 are worded in reverse: the answer that agrees most still scores 1.
  const Question7: Question :=
    Question(7, Autonomy,
      "의사결정 과정에서 당사자의 의견이 반영되고 있나요?",
      "자율성(Autonomy) 위협 평가", [
      Answer("7a", "매우 그렇다 - 의견이 적극적으로 반영되고 있다", 1),
      Answer("7b", "많이 그렇다 - 대부분의 의견이 반영된다", 2),
      Answer("7c", "보통이다 - 일부 의견만 반영된다", 3),
      Answer("7d", "약간 그렇다 - 의견이 거의 반영되지 않는다", 4),
      Answer("7e", "전혀 그렇지 않다 - 의견이 완전히 무시된다", 5)])

  const Question8: Question :=
    Question(8, Relatedness,
      "당사자가 소외감이나 배제당하는 느낌을 받고 있나요?",
      "관계성(Relatedness) 위협 평가", [
      Answer("8a", "전혀 그렇지 않다 - 소속감과 연결감을 느끼고 있다", 1),
      Answer("8b", "약간 그렇다 - 가끔 소외감을 느낄 수 있다", 2),
      Answer("8c", "보통이다 - 때때로 배제당하는 느낌이 있다", 3),
      Answer("8d", "많이 그렇다 - 자주 소외감을 느끼고 있다", 4),
      Answer("8e", "매우 그렇다 - 심각하게 배제당하고 있다고 느낀다", 5)])

  const Question9: Question :=
    Question(9, Relatedness,
      "당사자들 간의 신뢰가 손상되었나요?",
      "관계성(Relatedness) 위협 평가", [
      Answer("9a", "전혀 그렇지 않다 - 신뢰 관계가 튼튼하다", 1),
      Answer("9b", "약간 그렇다 - 약간의 신뢰 문제가 있다", 2),
      Answer("9c", "보통이다 - 신뢰에 균열이 있다", 3),
      Answer("9d", "많이 그렇다 - 신뢰가 상당히 손상되었다", 4),
      Answer("9e", "매우 그렇다 - 신뢰가 완전히 무너졌다", 5)])

  const Question10: Question :=
    Question(10, Relatedness,
      "갈등으로 인해 팀이나 그룹의 결속력이 약해졌나요?",
      "관계성(Relatedness) 위협 평가", [
      Answer("10a", "전혀 그렇지 않다 - 결속력이 유지되고 있다", 1),
      Answer("10b", "약간 그렇다 - 약간의 분열이 있다", 2),
      Answer("10c", "보통이다 - 결속력이 흔들리고 있다", 3),
      Answer("10d", "많이 그렇다 - 심각한 분열이 발생했다", 4),
      Answer("10e", "매우 그렇다 - 팀이 완전히 분열되었다", 5)])

  const Question11: Question :=
    Question(11, Fairness,
      "당사자가 불공정한 대우를 받고 있다고 느끼나요?",
      "공정성(Fairness) 위협 평가", [
      Answer("11a", "전혀 그렇지 않다 - 공정하게 대우받고 있다", 1),
      Answer("11b", "약간 그렇다 - 약간의 불공정함이 있다", 2),
      Answer("11c", "보통이다 - 어느 정도 불공정하다고 느낀다", 3),
      Answer("11d", "많이 그렇다 - 상당히 불공정하다고 느낀다", 4),
      Answer("11e", "매우 그렇다 - 심각하게 불공정한 대우를 받고 있다", 5)])

  const Question12: Question :=
    Question(12, Fairness,
      "의사결정 과정이 투명하고 공개적으로 진행되고 있나요?",
      "공정성(Fairness) 위협 평가", [
      Answer("12a", "매우 그렇다 - 모든 과정이 투명하게 공개된다", 1),
      Answer("12b", "많이 그렇다 - 대부분 투명하게 진행된다", 2),
      Answer("12c", "보통이다 - 일부만 공개된다", 3),
      Answer("12d", "약간 그렇다 - 대부분 비공개로 진행된다", 4),
      Answer("12e", "전혀 그렇지 않다 - 완전히 불투명하다", 5)])


  /** `scarfQuestions.filter(q => q.domain === domain)` over any list of questions. */
  function FilterByDomain(qs: seq<Question>, domain: string): (r: seq<Question>)
    ensures |r| <= |qs|
  {
    if qs == [] then []
    else if DomainName(qs[0].domain) == domain then [qs[0]] + FilterByDomain(qs[1..], domain)
    else FilterByDomain(qs[1..], domain)
  }

  /** Question ids strictly increase along the list. */
  predicate IdsAscending(qs: seq<Question>)
  {
    forall i, j :: 0 <= i < j < |qs| ==> qs[i].id < qs[j].id
  }

  /** The questions of the table whose domain tag equals `domain`, in table order. */
  function GetQuestionsByDomain(domain: string): (r: seq<Question>)
    ensures |r| <= GetTotalQuestions()
    ensures forall q :: q in r ==> DomainName(q.domain) == domain
  {
    FilterMembership(ScarfQuestionTable, domain);
    FilterByDomain(ScarfQuestionTable, domain)
  }

  /** The filter keeps exactly the questions carrying the requested tag. */
  lemma {:induction false} FilterMembership(qs: seq<Question>, domain: string)
    ensures forall q :: q in FilterByDomain(qs, domain) <==> q in qs && DomainName(q.domain) == domain
  {
    if qs != [] {
      FilterMembership(qs[1..], domain);
      assert forall q :: q in qs <==> q == qs[0] || q in qs[1..];
    }
  }

  /** The filter keeps the list order: ascending ids stay ascending. */
  lemma {:induction false} FilterKeepsOrder(qs: seq<Question>, domain: string)
    requires IdsAscending(qs)
    ensures IdsAscending(FilterByDomain(qs, domain))
  {
    if qs != [] {
      var rest := FilterByDomain(qs[1..], domain);
      FilterKeepsOrder(qs[1..], domain);
      FilterIdsAbove(qs[1..], domain, qs[0].id);
      if DomainName(qs[0].domain) == domain {
        var r := [qs[0]] + rest;
        assert forall j :: 0 < j < |r| ==> r[j] == rest[j - 1];
      }
    }
  }

  /** A lower bound on the ids of a list bounds the ids of its filter. */
  lemma {:induction false} FilterIdsAbove(qs: seq<Question>, domain: string, bound: int)
    requires forall i :: 0 <= i < |qs| ==> qs[i].id > bound
    ensures forall j :: 0 <= j < |FilterByDomain(qs, domain)| ==> FilterByDomain(qs, domain)[j].id > bound
  {
    if qs != [] {
      FilterIdsAbove(qs[1..], domain, bound);
    }
  }

  /** `getQuestionsByDomain(d)` returns exactly the table's questions tagged `d`, in table order. */
  lemma GetQuestionsByDomainSpec(domain: string)
    ensures forall q :: q in GetQuestionsByDomain(domain) <==> q in ScarfQuestionTable && DomainName(q.domain) == domain
    ensures IdsAscending(GetQuestionsByDomain(domain))
  {
    QuestionIdsAreOneToTwelve();
    FilterMembership(ScarfQuestionTable, domain);
    FilterKeepsOrder(ScarfQuestionTable, domain);
  }

  function GetTotalQuestions(): (n: nat)
    ensures n == 12
  {
    |ScarfQuestionTable|
  }

  // ---------------------------------------------------------------------
  // Invariants of the table

  /** There are twelve questions, numbered 1..12 in table order (so the ids are unique). */
  lemma QuestionIdsAreOneToTwelve()
    ensures GetTotalQuestions() == |ScarfQuestionTable| == 12
    ensures forall i :: 0 <= i < |ScarfQuestionTable| ==> ScarfQuestionTable[i].id == i + 1
    ensures IdsAscending(ScarfQuestionTable)
  {
  }

  /** Every question offers exactly five answers scored 1, 2, 3, 4, 5 in list order,
      the reverse-worded questions 7 and 12 included. */
  lemma AnswerScoresAscendOneToFive()
    ensures forall i :: 0 <= i < |ScarfQuestionTable| ==> |ScarfQuestionTable[i].answers| == 5
    ensures forall i, k :: 0 <= i < |ScarfQuestionTable| && 0 <= k < |ScarfQuestionTable[i].answers| ==>
      ScarfQuestionTable[i].answers[k].score == k + 1
  {
  }

  /** Every answer score lies in [1,5]. */
  lemma AnswerScoresInRange()
    ensures forall q, a :: q in ScarfQuestionTable && a in q.answers ==> 1 <= a.score <= 5
  {
    AnswerScoresAscendOneToFive();
    forall q, a | q in ScarfQuestionTable && a in q.answers ensures 1 <= a.score <= 5 {
      var i :| 0 <= i < |ScarfQuestionTable| && ScarfQuestionTable[i] == q;
      var k :| 0 <= k < |q.answers| && q.answers[k] == a;
    }
  }

  // ---------------------------------------------------------------------
  // Answer ids

  /** Decimal notation of a natural number, as JavaScript prints it. */
  function DecimalString(n: nat): (s: string)
    ensures |s| >= 1
    ensures n < 10 <==> |s| == 1
    ensures forall k :: 0 <= k < |s| ==> '0' <= s[k] <= '9'
  {
    if n < 10 then [('0' as int + n) as char]
    else DecimalString(n / 10) + [('0' as int + n % 10) as char]
  }

  /** Distinct numbers have distinct decimal notations. */
  lemma {:induction false} DecimalStringInjective(m: nat, n: nat)
    requires DecimalString(m) == DecimalString(n)
    ensures m == n
  {
    var sm, sn := DecimalString(m), DecimalString(n);
    assert sm[|sm| - 1] == sn[|sn| - 1];
    if m >= 10 && n >= 10 {
      assert sm[..|sm| - 1] == DecimalString(m / 10);
      assert sn[..|sn| - 1] == DecimalString(n / 10);
      DecimalStringInjective(m / 10, n / 10);
    }
  }

  const AnswerLetters: string := "abcde"

  /** The id of the `k`-th answer of question `questionId`: the question id followed by a letter. */
  function AnswerId(questionId: nat, k: nat): (s: string)
    requires k < |AnswerLetters|
    ensures |s| >= 2 && s[|s| - 1] == AnswerLetters[k]
  {
    DecimalString(questionId) + [AnswerLetters[k]]
  }

  /** Answer ids determine both the question and the position of the answer. */
  lemma AnswerIdInjective(q1: nat, k1: nat, q2: nat, k2: nat)
    requires k1 < |AnswerLetters| && k2 < |AnswerLetters|
    requires AnswerId(q1, k1) == AnswerId(q2, k2)
    ensures q1 == q2 && k1 == k2
  {
    var s1, s2 := AnswerId(q1, k1), AnswerId(q2, k2);
    assert s1[..|s1| - 1] == DecimalString(q1);
    assert s2[..|s2| - 1] == DecimalString(q2);
    DecimalStringInjective(q1, q2);
  }

  /** The answers of `q` are `a`..`e` after the id of `q`. */
  predicate AnswerIdsFollowQuestionId(q: Question)
    requires q.id >= 0
  {
    |q.answers| == |AnswerLetters| &&
    forall k :: 0 <= k < |q.answers| ==> q.answers[k].id == AnswerId(q.id, k)
  }

  /** The answer ids of each question follow the question id. */
  lemma QuestionAnswerIds()
    ensures forall i :: 0 <= i < |ScarfQuestionTable| ==> AnswerIdsFollowQuestionId(ScarfQuestionTable[i])
  {
    StatusAnswerIds();
    CertaintyAnswerIds();
    AutonomyAnswerIds();
    RelatednessAnswerIds();
    FairnessAnswerIds();
  }

  // One lemma per domain group of the table, so that each proof looks at a few questions only.

  lemma StatusAnswerIds()
    ensures AnswerIdsFollowQuestionId(Question1)
    ensures AnswerIdsFollowQuestionId(Question2)
  {
  }

  lemma CertaintyAnswerIds()
    ensures AnswerIdsFollowQuestionId(Question3)
    ensures AnswerIdsFollowQuestionId(Question4)
    ensures AnswerIdsFollowQuestionId(Question5)
  {
  }

  lemma AutonomyAnswerIds()
    ensures AnswerIdsFollowQuestionId(Question6)
    ensures AnswerIdsFollowQuestionId(Question7)
  {
  }

  lemma RelatednessAnswerIds()
    ensures AnswerIdsFollowQuestionId(Question8)
    ensures AnswerIdsFollowQuestionId(Question9)
    ensures AnswerIdsFollowQuestionId(Question10)
  {
    assert DecimalString(10) == "10";
  }

  lemma FairnessAnswerIds()
    ensures AnswerIdsFollowQuestionId(Question11)
    ensures AnswerIdsFollowQuestionId(Question12)
  {
    assert DecimalString(11) == "11" && DecimalString(12) == "12";
  }

  /** Every answer id is its question's id followed by `a`..`e`, and no two answers
      anywhere in the table share an id. */
  lemma AnswerIdsUnique()
    ensures forall i, k :: 0 <= i < |ScarfQuestionTable| && 0 <= k < |ScarfQuestionTable[i].answers| ==>
      ScarfQuestionTable[i].answers[k].id == AnswerId(ScarfQuestionTable[i].id, k)
    ensures forall i, k, j, l ::
      0 <= i < |ScarfQuestionTable| && 0 <= k < |ScarfQuestionTable[i].answers| &&
      0 <= j < |ScarfQuestionTable| && 0 <= l < |ScarfQuestionTable[j].answers| &&
      ScarfQuestionTable[i].answers[k].id == ScarfQuestionTable[j].answers[l].id ==>
      i == j && k == l
  {
    QuestionIdsAreOneToTwelve();
    QuestionAnswerIds();
    forall i, k, j, l |
      0 <= i < |ScarfQuestionTable| && 0 <= k < |ScarfQuestionTable[i].answers| &&
      0 <= j < |ScarfQuestionTable| && 0 <= l < |ScarfQuestionTable[j].answers| &&
      ScarfQuestionTable[i].answers[k].id == ScarfQuestionTable[j].answers[l].id
      ensures i == j && k == l
    {
      AnswerIdInjective(i + 1, k, j + 1, l);
    }
  }

  // ---------------------------------------------------------------------
  // Domain queries

  /** Filtering distributes over concatenation. */
  lemma {:induction false} FilterAppend(a: seq<Question>, b: seq<Question>, domain: string)
    ensures FilterByDomain(a + b, domain) == FilterByDomain(a, domain) + FilterByDomain(b, domain)
  {
    if a != [] {
      assert (a + b)[1..] == a[1..] + b;
      FilterAppend(a[1..], b, domain);
    } else {
      assert a + b == b;
    }
  }

  /** A string that tags no question selects nothing. */
  lemma UnknownDomainIsEmpty(domain: string)
    requires forall d :: DomainName(d) != domain
    ensures GetQuestionsByDomain(domain) == []
  {
    NoMatchFiltersNothing(ScarfQuestionTable, domain);
  }

  /** Filtering a list none of whose questions carries the requested tag yields nothing. */
  lemma {:induction false} NoMatchFiltersNothing(qs: seq<Question>, domain: string)
    requires forall i :: 0 <= i < |qs| ==> DomainName(qs[i].domain) != domain
    ensures FilterByDomain(qs, domain) == []
  {
    if qs != [] {
      NoMatchFiltersNothing(qs[1..], domain);
    }
  }

  /** The exact answer of the query for each domain: consecutive runs of the table. */
  lemma QuestionsPerDomain()
    ensures GetQuestionsByDomain("status") == ScarfQuestionTable[0..2]
    ensures GetQuestionsByDomain("certainty") == ScarfQuestionTable[2..5]
    ensures GetQuestionsByDomain("autonomy") == ScarfQuestionTable[5..7]
    ensures GetQuestionsByDomain("relatedness") == ScarfQuestionTable[7..10]
    ensures GetQuestionsByDomain("fairness") == ScarfQuestionTable[10..12]
  {
    var t := ScarfQuestionTable;
    assert t == t[0..2] + t[2..5] + t[5..7] + t[7..10] + t[10..12];
    FilterDomainBlocks(t[0..2], t[2..5], t[5..7], t[7..10], t[10..12]);
  }

  /** Status 2, certainty 3, autonomy 2, relatedness 3 and fairness 2 questions. */
  lemma QuestionCountsPerDomain()
    ensures |GetQuestionsByDomain("status")| == 2 && |GetQuestionsByDomain("certainty")| == 3
    ensures |GetQuestionsByDomain("autonomy")| == 2 && |GetQuestionsByDomain("relatedness")| == 3
    ensures |GetQuestionsByDomain("fairness")| == 2
  {
    QuestionsPerDomain();
  }

  /** A list made of one run of questions per domain, in domain order, is split back into
      those runs by the five filters. */
  lemma FilterDomainBlocks(b1: seq<Question>, b2: seq<Question>, b3: seq<Question>, b4: seq<Question>,
                           b5: seq<Question>)
    requires forall i :: 0 <= i < |b1| ==> b1[i].domain == Status
    requires forall i :: 0 <= i < |b2| ==> b2[i].domain == Certainty
    requires forall i :: 0 <= i < |b3| ==> b3[i].domain == Autonomy
    requires forall i :: 0 <= i < |b4| ==> b4[i].domain == Relatedness
    requires forall i :: 0 <= i < |b5| ==> b5[i].domain == Fairness
    ensures FilterByDomain(b1 + b2 + b3 + b4 + b5, "status") == b1
    ensures FilterByDomain(b1 + b2 + b3 + b4 + b5, "certainty") == b2
    ensures FilterByDomain(b1 + b2 + b3 + b4 + b5, "autonomy") == b3
    ensures FilterByDomain(b1 + b2 + b3 + b4 + b5, "relatedness") == b4
    ensures FilterByDomain(b1 + b2 + b3 + b4 + b5, "fairness") == b5
  {
    FilterFiveBlocks(b1, b2, b3, b4, b5, "status");
    MatchKeepsAll(b1, "status");
    NoMatchFiltersNothing(b2, "status");
    NoMatchFiltersNothing(b3, "status");
    NoMatchFiltersNothing(b4, "status");
    NoMatchFiltersNothing(b5, "status");
    FilterFiveBlocks(b1, b2, b3, b4, b5, "certainty");
    NoMatchFiltersNothing(b1, "certainty");
    MatchKeepsAll(b2, "certainty");
    NoMatchFiltersNothing(b3, "certainty");
    NoMatchFiltersNothing(b4, "certainty");
    NoMatchFiltersNothing(b5, "certainty");
    FilterFiveBlocks(b1, b2, b3, b4, b5, "autonomy");
    NoMatchFiltersNothing(b1, "autonomy");
    NoMatchFiltersNothing(b2, "autonomy");
    MatchKeepsAll(b3, "autonomy");
    NoMatchFiltersNothing(b4, "autonomy");
    NoMatchFiltersNothing(b5, "autonomy");
    FilterFiveBlocks(b1, b2, b3, b4, b5, "relatedness");
    NoMatchFiltersNothing(b1, "relatedness");
    NoMatchFiltersNothing(b2, "relatedness");
    NoMatchFiltersNothing(b3, "relatedness");
    MatchKeepsAll(b4, "relatedness");
    NoMatchFiltersNothing(b5, "relatedness");
    FilterFiveBlocks(b1, b2, b3, b4, b5, "fairness");
    NoMatchFiltersNothing(b1, "fairness");
    NoMatchFiltersNothing(b2, "fairness");
    NoMatchFiltersNothing(b3, "fairness");
    NoMatchFiltersNothing(b4, "fairness");
    MatchKeepsAll(b5, "fairness");
  }

  lemma FilterFiveBlocks(b1: seq<Question>, b2: seq<Question>, b3: seq<Question>, b4: seq<Question>,
                         b5: seq<Question>, domain: string)
    ensures FilterByDomain(b1 + b2 + b3 + b4 + b5, domain) ==
      FilterByDomain(b1, domain) + FilterByDomain(b2, domain) + FilterByDomain(b3, domain)
      + FilterByDomain(b4, domain) + FilterByDomain(b5, domain)
  {
    FilterAppend(b1 + b2 + b3 + b4, b5, domain);
    FilterAppend(b1 + b2 + b3, b4, domain);
    FilterAppend(b1 + b2, b3, domain);
    FilterAppend(b1, b2, domain);
  }

  /** Filtering a list whose questions all carry the requested tag keeps the whole list. */
  lemma {:induction false} MatchKeepsAll(qs: seq<Question>, domain: string)
    requires forall i :: 0 <= i < |qs| ==> DomainName(qs[i].domain) == domain
    ensures FilterByDomain(qs, domain) == qs
  {
    if qs != [] {
      MatchKeepsAll(qs[1..], domain);
    }
  }

  /** Sum of the sizes of the five per-domain filters. */
  function DomainFilterTotal(qs: seq<Question>): nat
  {
    |FilterByDomain(qs, "status")| + |FilterByDomain(qs, "certainty")| + |FilterByDomain(qs, "autonomy")|
    + |FilterByDomain(qs, "relatedness")| + |FilterByDomain(qs, "fairness")|
  }

  /** The five domain filters split any question list into disjoint parts whose sizes add up
      to the size of the list. */
  lemma {:induction false} DomainFiltersPartition(qs: seq<Question>)
    ensures DomainFilterTotal(qs) == |qs|
    ensures forall q, d, e :: q in FilterByDomain(qs, DomainName(d)) && q in FilterByDomain(qs, DomainName(e)) ==> d == e
  {
    if qs != [] {
      DomainFiltersPartition(qs[1..]);
    }
    forall d | d in AllDomains { FilterMembership(qs, DomainName(d)); }
  }

  /** For the table: the five domain queries are disjoint and together return
      `GetTotalQuestions()` questions. */
  lemma DomainQueriesPartitionTable()
    ensures |GetQuestionsByDomain("status")| + |GetQuestionsByDomain("certainty")| + |GetQuestionsByDomain("autonomy")|
      + |GetQuestionsByDomain("relatedness")| + |GetQuestionsByDomain("fairness")| == GetTotalQuestions()
    ensures forall q, d, e :: q in GetQuestionsByDomain(DomainName(d)) && q in GetQuestionsByDomain(DomainName(e)) ==> d == e
    ensures forall q :: q in ScarfQuestionTable ==> exists d :: q in GetQuestionsByDomain(DomainName(d))
  {
    DomainFiltersPartition(ScarfQuestionTable);
    DomainFiltersCover(ScarfQuestionTable);
  }

  /** Every question of a list is kept by the filter for its own domain. */
  lemma DomainFiltersCover(qs: seq<Question>)
    ensures forall q :: q in qs ==> q in FilterByDomain(qs, DomainName(q.domain))
  {
    forall d { FilterMembership(qs, DomainName(d)); }
  }
}
