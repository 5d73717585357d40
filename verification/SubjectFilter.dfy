/** Subject and event-type filters: the escaped LIKE pattern and the numbered predicates
    spliced into a larger query. */
module SubjectFilter {
  import opened Options

  // ---- LIKE with backslash as escape character (section 9.7.1 of the PostgreSQL manual) ----

  /** Whether the whole text matches.  A pattern that ends in a lone escape character is an
      error in PostgreSQL and matches nothing here. */
  predicate Like(text: string, pattern: string)
    decreases |pattern|, |text|
  {
    if pattern == "" then text == ""
    else if pattern[0] == '\\' then
      |pattern| > 1 && text != "" && text[0] == pattern[1] && Like(text[1..], pattern[2..])
    else if pattern[0] == '%' then
      Like(text, pattern[1..]) || (text != "" && Like(text[1..], pattern))
    else if pattern[0] == '_' then text != "" && Like(text[1..], pattern[1..])
    else text != "" && text[0] == pattern[0] && Like(text[1..], pattern[1..])
  }

  /** No escape character is left without something to escape. */
  predicate Terminated(pattern: string)
    decreases |pattern|
  {
    pattern == "" ||
    (if pattern[0] == '\\' then |pattern| > 1 && Terminated(pattern[2..]) else Terminated(pattern[1..]))
  }

  predicate Special(c: char) {
    c == '\\' || c == '%' || c == '_'
  }

  /** escapeLikePattern. */
  function Escape(value: string): string {
    if value == "" then ""
    else (if Special(value[0]) then ['\\', value[0]] else [value[0]]) + Escape(value[1..])
  }

  lemma {:induction false} PercentMatchesAll(text: string)
    ensures Like(text, "%")
  {
    if text == "" {
      assert Like("", "%"[1..]);
    } else {
      PercentMatchesAll(text[1..]);
    }
  }

  /** The escaped subject followed by a percent sign matches exactly the texts that start with
      the subject, whatever characters it holds. */
  lemma {:induction false} EscapedIsPrefixTest(subject: string, text: string)
    ensures Terminated(Escape(subject) + "%")
    ensures Like(text, Escape(subject) + "%") <==> subject <= text
  {
    var pattern := Escape(subject) + "%";
    if subject == "" {
      assert pattern == "%" && pattern[1..] == "";
      PercentMatchesAll(text);
    } else {
      var rest := subject[1..];
      var width := if Special(subject[0]) then 2 else 1;
      assert pattern[width..] == Escape(rest) + "%";
      EscapedIsPrefixTest(rest, if text == "" then "" else text[1..]);
      if text != "" {
        assert subject <= text <==> subject[0] == text[0] && rest <= text[1..];
      }
    }
  }

  // ---- The predicates of a filter ----

  datatype Filter = Filter(subject: Option<string>, recursive: bool, eventTypes: Option<seq<string>>)

  datatype Param = Text(text: string) | Texts(texts: seq<string>)

  /** A predicate over a row, naming its parameters by number, $1 the first. */
  datatype Clause =
    | SubjectIs(exact: nat)
    | SubjectIsOrLike(exact: nat, prefix: nat)
    | TypeIsAny(types: nat)

  function ParamAt(params: seq<Param>, n: nat): Option<Param> {
    if 1 <= n <= |params| then Some(params[n - 1]) else None
  }

  /** Whether the predicate holds of a row, given the parameters of the whole query. */
  predicate Satisfied(clause: Clause, params: seq<Param>, subject: string, eventType: string) {
    match clause
    case SubjectIs(exact) => ParamAt(params, exact) == Some(Text(subject))
    case SubjectIsOrLike(exact, prefix) =>
      var pattern := ParamAt(params, prefix);
      ParamAt(params, exact) == Some(Text(subject)) ||
      (pattern.Some? && pattern.value.Text? && Like(subject, pattern.value.text))
    case TypeIsAny(types) =>
      var list := ParamAt(params, types);
      list.Some? && list.value.Texts? && eventType in list.value.texts
  }

  /** The clauses joined by AND. */
  predicate AllSatisfied(clauses: seq<Clause>, params: seq<Param>, subject: string, eventType: string) {
    forall i :: 0 <= i < |clauses| ==> Satisfied(clauses[i], params, subject, eventType)
  }

  /** What a subscription's options ask for. */
  predicate Wanted(filter: Filter, subject: string, eventType: string) {
    && (filter.subject.Some? ==>
          if filter.recursive then filter.subject.value <= subject else subject == filter.subject.value)
    && (filter.eventTypes.Some? && filter.eventTypes.value != [] ==> eventType in filter.eventTypes.value)
  }

  /** buildSubjectFilter: spliced in behind startIndex - 1 other parameters, the clauses hold
      of exactly the wanted rows. */
  method BuildSubjectFilter(filter: Filter, startIndex: nat) returns (clauses: seq<Clause>, params: seq<Param>)
    requires startIndex >= 1
    ensures forall others: seq<Param>, subject: string, eventType: string :: |others| == startIndex - 1 ==>
              (AllSatisfied(clauses, others + params, subject, eventType) <==> Wanted(filter, subject, eventType))
  {
    clauses, params := [], [];
    var idx := startIndex;
    if filter.subject.Some? {
      if filter.recursive {
        var exact := idx;
        params := params + [Text(filter.subject.value)];
        idx := idx + 1;
        var prefix := idx;
        params := params + [Text(Escape(filter.subject.value) + "%")];
        idx := idx + 1;
        clauses := clauses + [SubjectIsOrLike(exact, prefix)];
      } else {
        clauses := clauses + [SubjectIs(idx)];
        params := params + [Text(filter.subject.value)];
        idx := idx + 1;
      }
    }
    ghost var subjectParams := params;
    ghost var subjectClauses := clauses;
    if filter.eventTypes.Some? && |filter.eventTypes.value| > 0 {
      clauses := clauses + [TypeIsAny(idx)];
      params := params + [Texts(filter.eventTypes.value)];
    }
    forall others: seq<Param>, subject: string, eventType: string | |others| == startIndex - 1
      ensures AllSatisfied(clauses, others + params, subject, eventType) <==> Wanted(filter, subject, eventType)
    {
      if filter.subject.Some? {
        EscapedIsPrefixTest(filter.subject.value, subject);
        assert (others + params)[startIndex - 1] == Text(filter.subject.value);
        assert Satisfied(clauses[0], others + params, subject, eventType) <==>
               if filter.recursive then filter.subject.value <= subject else subject == filter.subject.value;
      }
      if |clauses| > |subjectClauses| {
        assert (others + params)[|others| + |subjectParams|] == Texts(filter.eventTypes.value);
        assert Satisfied(clauses[|subjectClauses|], others + params, subject, eventType) <==>
               eventType in filter.eventTypes.value;
      }
    }
  }
}
