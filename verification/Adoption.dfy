/** Reviewing the facts of one metric, and adopting their one value. */
module Adoption {
  import opened Basics
  import opened Decimals

  // A fact without a value is an explicit nil.
  datatype Fact = Fact(ordinal: Id, member: Id, concept: Id, context: Id, unit: Id, value: Option<string>, scaled: bool)

  datatype Period = Instant(on: Id) | Duration(start: Id, end: Id)

  // `entity` is the outcome of matching the context's entity against the issuer.
  datatype Context = Context(entity: Id, period: Period, dimensions: bool)
  const MATCHED: Id := 0

  datatype Rule = Rule(concepts: set<Id>, instant: bool)
  datatype Proposal = Proposal(start: Id, end: Id)

  // The contexts and the plain yen units of the archive, by member and name.
  datatype Archive = Archive(contexts: map<(Id, Id), Context>, yen: set<(Id, Id)>)

  datatype Reason = Filing(reason: Id) | Entity(reason: Id) | PeriodMismatch | OutsideDimensions | UnsupportedUnit
                  | UnsupportedScale | InvalidNumber | IsNil

  datatype Status = Missing | Excluded | NilOnly | Single | Duplicate | Conflicting

  datatype Candidate = Candidate(ordinal: Id, reasons: set<Reason>)
  datatype Review = Review(status: Status, candidates: seq<Candidate>, comparable: seq<Id>)

  predicate Known(archive: Archive, facts: seq<Fact>) {
    forall f :: f in facts ==> (f.member, f.context) in archive.contexts
  }

  predicate PeriodFits(period: Period, rule: Rule, proposal: Proposal) {
    if rule.instant then period == Instant(proposal.end) else period == Duration(proposal.start, proposal.end)
  }

  /** Why a fact is not comparable; none if it is. */
  function ReasonsFor(f: Fact, archive: Archive, rule: Rule, proposal: Proposal, filing: set<Reason>): set<Reason>
    requires (f.member, f.context) in archive.contexts
  {
    var context := archive.contexts[(f.member, f.context)];
    filing
    + (if context.entity != MATCHED then {Entity(context.entity)} else {})
    + (if !PeriodFits(context.period, rule, proposal) then {PeriodMismatch} else {})
    + (if context.dimensions then {OutsideDimensions} else {})
    + (if (f.member, f.unit) !in archive.yen then {UnsupportedUnit} else {})
    + (if f.scaled then {UnsupportedScale} else {})
    + (if f.value.Some? && !Lexical(f.value.value) then {InvalidNumber} else {})
  }

  predicate Comparable(f: Fact, archive: Archive, rule: Rule, proposal: Proposal, filing: set<Reason>)
    requires (f.member, f.context) in archive.contexts
  {
    f.concept in rule.concepts && ReasonsFor(f, archive, rule, proposal, filing) == {}
  }

  function Selected(facts: seq<Fact>, archive: Archive, rule: Rule, proposal: Proposal, filing: set<Reason>): (r: seq<Fact>)
    requires Known(archive, facts)
    ensures forall f :: f in r <==> f in facts && Comparable(f, archive, rule, proposal, filing)
    ensures forall f :: f in r && f.value.Some? ==> Lexical(f.value.value)
  {
    if facts == [] then []
    else
      var last := facts[|facts| - 1];
      assert facts == facts[..|facts| - 1] + [last];
      Selected(facts[..|facts| - 1], archive, rule, proposal, filing)
      + (if Comparable(last, archive, rule, proposal, filing) then [last] else [])
  }

  function Ordinals(facts: seq<Fact>): seq<Id> {
    if facts == [] then [] else Ordinals(facts[..|facts| - 1]) + [facts[|facts| - 1].ordinal]
  }

  // The numbers of the facts that have one, in order.
  function Numbers(facts: seq<Fact>): (r: seq<Decimal>)
    requires forall f :: f in facts && f.value.Some? ==> Lexical(f.value.value)
  {
    if facts == [] then []
    else
      var last := facts[|facts| - 1];
      assert last in facts;
      assert forall f :: f in facts[..|facts| - 1] ==> f in facts;
      Numbers(facts[..|facts| - 1]) + (if last.value.Some? then [Parse(last.value.value).value] else [])
  }

  function Nils(facts: seq<Fact>): nat {
    if facts == [] then 0 else Nils(facts[..|facts| - 1]) + (if facts[|facts| - 1].value.None? then 1 else 0)
  }

  predicate OneNumber(numbers: seq<Decimal>) {
    numbers != [] && forall i :: 0 <= i < |numbers| ==> Same(numbers[0], numbers[i])
  }

  lemma {:induction false} NumbersOfFacts(facts: seq<Fact>)
    requires forall f :: f in facts && f.value.Some? ==> Lexical(f.value.value)
    ensures forall f :: f in facts && f.value.Some? ==> Parse(f.value.value).value in Numbers(facts)
    ensures forall n :: n in Numbers(facts) ==> exists f :: f in facts && f.value.Some? && Parse(f.value.value) == Some(n)
    ensures |Numbers(facts)| + Nils(facts) == |facts|
    ensures Nils(facts) == 0 <==> forall f :: f in facts ==> f.value.Some?
  {
    hide Lexical;
    if facts != [] {
      var front, last := facts[..|facts| - 1], facts[|facts| - 1];
      assert facts == front + [last];
      NumbersOfFacts(front);
      forall n | n in Numbers(facts)
        ensures exists f :: f in facts && f.value.Some? && Parse(f.value.value) == Some(n)
      {
        if n in Numbers(front) {
          var f :| f in front && f.value.Some? && Parse(f.value.value) == Some(n);
          assert f in facts;
        } else {
          assert last in facts && last.value.Some? && n == Parse(last.value.value).value;
          ParsedLexical(last.value.value);
        }
      }
    }
  }

  lemma ParsedLexical(s: string)
    ensures Lexical(s) <==> Parse(s).Some?
  {
  }

  // What each status says of the comparable facts.
  ghost predicate StatusMeans(status: Status, facts: seq<Fact>, rule: Rule, selected: seq<Fact>)
    requires forall f :: f in selected && f.value.Some? ==> Lexical(f.value.value)
  {
    var numbers := Numbers(selected);
    match status
    case Missing => forall f :: f in facts ==> f.concept !in rule.concepts
    case Excluded => (exists f :: f in facts && f.concept in rule.concepts) && selected == []
    case NilOnly => selected != [] && forall f :: f in selected ==> f.value.None?
    case Single => |selected| == 1 && selected[0].value.Some?
    case Duplicate => |selected| > 1 && OneNumber(numbers) && forall f :: f in selected ==> f.value.Some?
    case Conflicting =>
      || (numbers != [] && exists f :: f in selected && f.value.None?)
      || (exists i, j :: 0 <= i < j < |numbers| && !Same(numbers[i], numbers[j]))
  }

  lemma NotOneNumber(numbers: seq<Decimal>)
    requires numbers != [] && !OneNumber(numbers)
    ensures exists i, j :: 0 <= i < j < |numbers| && !Same(numbers[i], numbers[j])
  {
    SameReflexive(numbers[0]);
    var i :| 0 <= i < |numbers| && !Same(numbers[0], numbers[i]);
    assert 0 < i;
  }

  /** Review the facts of one metric in order. The comparable ordinals are those of exactly the facts with an accepted
      concept and no reason against them, and the status says what their values are. */
  method ReviewMetric(facts: seq<Fact>, archive: Archive, rule: Rule, proposal: Proposal, filing: set<Reason>) returns (review: Review)
    requires Known(archive, facts)
    ensures review.comparable == Ordinals(Selected(facts, archive, rule, proposal, filing))
    ensures StatusMeans(review.status, facts, rule, Selected(facts, archive, rule, proposal, filing))
  {
    var candidates: seq<Candidate>, comparable: seq<Id>, numbers: seq<Decimal>, nils := [], [], [], 0;
    ghost var selected: seq<Fact> := [];
    for i := 0 to |facts|
      invariant selected == Selected(facts[..i], archive, rule, proposal, filing)
      invariant comparable == Ordinals(selected) && numbers == Numbers(selected) && nils == Nils(selected)
      invariant candidates == [] <==> forall f :: f in facts[..i] ==> f.concept !in rule.concepts
    {
      assert facts[..i + 1] == facts[..i] + [facts[i]];
      assert facts[..i + 1][..i] == facts[..i];
      var f := facts[i];
      if f.concept in rule.concepts {
        var reasons := ReasonsFor(f, archive, rule, proposal, filing);
        if reasons == {} {
          OneSelected(selected, f);
          selected := selected + [f];
          comparable := comparable + [f.ordinal];
          if f.value.None? {
            nils := nils + 1;
          } else {
            numbers := numbers + [Parse(f.value.value).value];
          }
        }
        candidates := candidates + [Candidate(f.ordinal, reasons + if f.value.None? then {IsNil} else {})];
      }
    }
    assert facts[..|facts|] == facts;
    var status := Judge(candidates == [], comparable == [], nils, numbers);
    StatusJudged(facts, rule, selected, candidates == []);
    review := Review(status, candidates, comparable);
  }

  lemma OneSelected(selected: seq<Fact>, f: Fact)
    requires forall g :: g in selected + [f] && g.value.Some? ==> Lexical(g.value.value)
    ensures Ordinals(selected + [f]) == Ordinals(selected) + [f.ordinal]
    ensures (forall g :: g in selected && g.value.Some? ==> Lexical(g.value.value))
    ensures Numbers(selected + [f]) == Numbers(selected) + if f.value.Some? then [Parse(f.value.value).value] else []
    ensures Nils(selected + [f]) == Nils(selected) + if f.value.None? then 1 else 0
  {
    assert (selected + [f])[..|selected|] == selected;
    assert forall g :: g in selected ==> g in selected + [f];
  }

  function Judge(noCandidates: bool, noComparable: bool, nils: nat, numbers: seq<Decimal>): Status {
    if noCandidates then Missing
    else if noComparable then Excluded
    else if (nils > 0 && numbers != []) || (numbers != [] && !OneNumber(numbers)) then Conflicting
    else if nils > 0 then NilOnly
    else if |numbers| > 1 then Duplicate
    else Single
  }

  lemma StatusJudged(facts: seq<Fact>, rule: Rule, selected: seq<Fact>, noCandidates: bool)
    requires forall f :: f in selected && f.value.Some? ==> Lexical(f.value.value)
    requires noCandidates <==> forall f :: f in facts ==> f.concept !in rule.concepts
    ensures StatusMeans(Judge(noCandidates, selected == [], Nils(selected), Numbers(selected)), facts, rule, selected)
    ensures Ordinals(selected) == [] <==> selected == []
  {
    hide Lexical, Parse, Same;
    NumbersOfFacts(selected);
    var numbers := Numbers(selected);
    if numbers != [] && !OneNumber(numbers) {
      NotOneNumber(numbers);
    }
    if selected != [] {
      assert selected[0] in selected;
    }
  }

  // ---------------------------------------------------------------- adoption

  datatype Proof = Proof(reasons: set<Id>, verified: bool, instant: bool, concept: Id)

  datatype Objection = FromProof(reason: Id) | ProofUnresolved | PeriodTypeMismatch | NotACandidate(status: Status) | NoComparable
                     | ConceptMismatch | NoUniqueValue

  datatype Adopted = Adopted(value: Option<string>, reasons: set<Objection>)

  function ByOrdinal(facts: seq<Fact>): map<Id, Fact> {
    if facts == [] then map[] else ByOrdinal(facts[..|facts| - 1])[facts[|facts| - 1].ordinal := facts[|facts| - 1]]
  }

  predicate Adoptable(selected: seq<Fact>)  {
    forall f :: f in selected && f.value.Some? ==> Lexical(f.value.value)
  }

  /** Adopt the one number of the comparable facts. It is adopted exactly when nothing speaks against the proof or the
      review, every fact has the proven concept and a value, and all values are one number; the adopted text then
      denotes that number, whichever fact it was taken from. */
  method AdoptMetric(selected: seq<Fact>, instant: bool, status: Status, proof: Proof) returns (adopted: Adopted)
    requires Adoptable(selected)
    ensures adopted.value.Some? <==> adopted.reasons == {}
    ensures adopted.value.Some? <==>
              && proof.reasons == {} && proof.verified && proof.instant == instant && (status == Single || status == Duplicate)
              && (forall f :: f in selected ==> f.concept == proof.concept && f.value.Some?)
              && OneNumber(Numbers(selected))
    ensures adopted.value.Some? ==>
              && Parse(adopted.value.value).Some?
              && forall f :: f in selected ==>
                   f.value.Some? && Same(Parse(adopted.value.value).value, Parse(f.value.value).value)
                   && adopted.value.value == Emit(Parse(f.value.value).value)
  {
    hide Lexical, Parse, Emit, Same;
    var reasons := set r | r in proof.reasons :: FromProof(r);
    ghost var none := (proof.reasons == {});
    assert reasons == {} <==> none by {
      if !none {
        var r :| r in proof.reasons;
        assert FromProof(r) in reasons;
      }
    }
    if !proof.verified {
      reasons := reasons + {ProofUnresolved};
    }
    if proof.instant != instant {
      reasons := reasons + {PeriodTypeMismatch};
    }
    if status != Single && status != Duplicate {
      reasons := reasons + {NotACandidate(status)};
    }
    if selected == [] {
      reasons := reasons + {NoComparable};
    }
    if exists f :: f in selected && f.concept != proof.concept {
      reasons := reasons + {ConceptMismatch};
    }
    var numbers := Numbers(selected);
    if !OneNumber(numbers) || exists f :: f in selected && f.value.None? {
      reasons := reasons + {NoUniqueValue};
    }
    if reasons != {} {
      return Adopted(None, reasons);
    }
    assert numbers[0] in numbers;
    var number :| number in numbers;
    AdoptedAgrees(selected, number);
    adopted := Adopted(Some(Emit(number)), {});
  }

  lemma AdoptedAgrees(selected: seq<Fact>, number: Decimal)
    requires Adoptable(selected) && OneNumber(Numbers(selected)) && number in Numbers(selected)
    ensures Parse(Emit(number)).Some?
    ensures forall f :: f in selected && f.value.Some? ==>
              Same(Parse(Emit(number)).value, Parse(f.value.value).value) && Emit(number) == Emit(Parse(f.value.value).value)
  {
    hide Lexical, Emit, Same, Numbers;
    var numbers := Numbers(selected);
    RoundTrip(number);
    NumbersOfFacts(selected);
    forall f | f in selected && f.value.Some?
      ensures Same(Parse(Emit(number)).value, Parse(f.value.value).value) && Emit(number) == Emit(Parse(f.value.value).value)
    {
      OneNumberSame(numbers, number, Parse(f.value.value).value);
      SameTransitive(Parse(Emit(number)).value, number, Parse(f.value.value).value);
      SameIffSameText(number, Parse(f.value.value).value);
    }
  }

  lemma OneNumberSame(numbers: seq<Decimal>, x: Decimal, y: Decimal)
    requires OneNumber(numbers) && x in numbers && y in numbers
    ensures Same(x, y)
  {
    hide Same;
    var first := numbers[0];
    SameIffSameText(first, x);
    SameIffSameText(first, y);
    SameIffSameText(x, y);
  }

  lemma {:induction false} OrdinalLookup(facts: seq<Fact>)
    requires forall i, j :: 0 <= i < j < |facts| ==> facts[i].ordinal != facts[j].ordinal
    ensures forall i :: 0 <= i < |facts| ==> facts[i].ordinal in ByOrdinal(facts) && ByOrdinal(facts)[facts[i].ordinal] == facts[i]
  {
    if facts != [] {
      OrdinalLookup(facts[..|facts| - 1]);
    }
  }

  lemma {:induction false} OrdinalsAt(facts: seq<Fact>)
    ensures |Ordinals(facts)| == |facts| && forall i :: 0 <= i < |facts| ==> Ordinals(facts)[i] == facts[i].ordinal
  {
    if facts != [] {
      OrdinalsAt(facts[..|facts| - 1]);
    }
  }

  /** Looking the comparable ordinals up again finds exactly the comparable facts, as ordinals are unique in an archive. */
  lemma LookedUp(facts: seq<Fact>, archive: Archive, rule: Rule, proposal: Proposal, filing: set<Reason>, i: nat)
    requires Known(archive, facts) && i < |Selected(facts, archive, rule, proposal, filing)|
    requires forall i, j :: 0 <= i < j < |facts| ==> facts[i].ordinal != facts[j].ordinal
    ensures var selected := Selected(facts, archive, rule, proposal, filing);
            |Ordinals(selected)| == |selected| && Ordinals(selected)[i] in ByOrdinal(facts)
            && ByOrdinal(facts)[Ordinals(selected)[i]] == selected[i]
  {
    var selected := Selected(facts, archive, rule, proposal, filing);
    OrdinalsAt(selected);
    OrdinalLookup(facts);
    assert selected[i] in selected;
    assert selected[i] in facts;
  }

  // A single or duplicate candidate has its one number in every comparable fact.
  lemma ReviewedIsUnique(status: Status, facts: seq<Fact>, rule: Rule, selected: seq<Fact>)
    requires Adoptable(selected) && StatusMeans(status, facts, rule, selected) && (status == Single || status == Duplicate)
    ensures OneNumber(Numbers(selected)) && forall f :: f in selected ==> f.value.Some?
  {
    hide Lexical, Parse, Same;
    if status == Single {
      assert selected[0] in selected;
      ParsedLexical(selected[0].value.value);
      var number := Parse(selected[0].value.value).value;
      NumbersOfFacts(selected);
      assert selected[..0] == [] && Numbers(selected) == [number];
      SameReflexive(number);
    }
  }

  /** Review a metric and adopt its value: of a reviewed metric it is adopted exactly when the proof is clean and fits, the
      review found a single or a duplicate candidate, and every comparable fact has the proven concept. The text then denotes
      the number of each comparable fact. */
  method ReviewAndAdopt(facts: seq<Fact>, archive: Archive, rule: Rule, proposal: Proposal, filing: set<Reason>, instant: bool, proof: Proof)
    returns (status: Status, adopted: Adopted)
    requires Known(archive, facts)
    requires forall i, j :: 0 <= i < j < |facts| ==> facts[i].ordinal != facts[j].ordinal
    ensures StatusMeans(status, facts, rule, Selected(facts, archive, rule, proposal, filing))
    ensures adopted.value.Some? <==>
              && proof.reasons == {} && proof.verified && proof.instant == instant && (status == Single || status == Duplicate)
              && forall f :: f in Selected(facts, archive, rule, proposal, filing) ==> f.concept == proof.concept
    ensures adopted.value.Some? ==>
              forall f :: f in Selected(facts, archive, rule, proposal, filing) ==>
                f.value.Some? && Parse(f.value.value).Some? && adopted.value.value == Emit(Parse(f.value.value).value)
  {
    hide Selected, StatusMeans, Numbers, Emit, Parse, OneNumber, Lexical;
    var review := ReviewMetric(facts, archive, rule, proposal, filing);
    ghost var all := Selected(facts, archive, rule, proposal, filing);
    OrdinalsAt(all);
    var selected: seq<Fact> := [];
    for i := 0 to |review.comparable|
      invariant selected == all[..i]
    {
      LookedUp(facts, archive, rule, proposal, filing, i);
      selected := selected + [ByOrdinal(facts)[review.comparable[i]]];
    }
    assert selected == all;
    status := review.status;
    if status == Single || status == Duplicate {
      ReviewedIsUnique(status, facts, rule, selected);
    }
    adopted := AdoptMetric(selected, instant, status, proof);
    ParsedFacts(selected);
  }

  lemma ParsedFacts(selected: seq<Fact>)
    requires Adoptable(selected)
    ensures forall f :: f in selected && f.value.Some? ==> Parse(f.value.value).Some?
  {
  }

  /** A fact is comparable exactly if nothing is held against the filing, its concept is an accepted one, its entity is the
      issuer, its period is the proposed one of the rule's type, it has no dimensions, is in yen and unscaled, and its value,
      unless it is nil, is an accepted decimal. */
  lemma ComparableIff(f: Fact, archive: Archive, rule: Rule, proposal: Proposal, filing: set<Reason>)
    requires (f.member, f.context) in archive.contexts
    ensures var context := archive.contexts[(f.member, f.context)];
            Comparable(f, archive, rule, proposal, filing) <==>
              && filing == {} && f.concept in rule.concepts && context.entity == MATCHED && !context.dimensions && !f.scaled
              && (rule.instant ==> context.period == Instant(proposal.end))
              && (!rule.instant ==> context.period == Duration(proposal.start, proposal.end))
              && (f.member, f.unit) in archive.yen && (f.value.Some? ==> Parse(f.value.value).Some?)
  {
    var context := archive.contexts[(f.member, f.context)];
    var reasons := ReasonsFor(f, archive, rule, proposal, filing);
    if f.value.Some? {
      ParsedLexical(f.value.value);
    }
    hide Lexical, Parse;
    assert context.entity != MATCHED ==> Entity(context.entity) in reasons;
    assert !PeriodFits(context.period, rule, proposal) ==> PeriodMismatch in reasons;
    assert context.dimensions ==> OutsideDimensions in reasons;
    assert (f.member, f.unit) !in archive.yen ==> UnsupportedUnit in reasons;
    assert f.scaled ==> UnsupportedScale in reasons;
    assert f.value.Some? && !Lexical(f.value.value) ==> InvalidNumber in reasons;
    assert filing <= reasons;
  }
}
