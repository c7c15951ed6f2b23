/** The constrained rewrite: verbatim quotes, the two-prefix protocol, and the draft it yields. */
module Assembler {
  import opened Wrappers
  import opened Errors
  import opened Text
  import opened Drafts
  import opened LlmClient
  import opened Grounding
  import Seqs

  const MAX_QUOTES := 5
  const MIN_QUOTE_CHARS := 8
  const DRY_RUN_INTRO := "[LLM not actually executed \U{2014} dry-run]"

  // --- verbatim quotes ---

  /** The distinct stripped lines of at least eight characters, in order of first appearance. */
  function Candidates(lines: seq<string>): seq<string> {
    if lines == [] then []
    else
      var before := Candidates(lines[..|lines| - 1]);
      var line := Strip(lines[|lines| - 1]);
      if |line| >= MIN_QUOTE_CHARS && line !in before then before + [line] else before
  }

  /** The loop stops only after adding a quote, so a limit below one still yields one. */
  function QuoteLimit(maxQuotes: int): nat { if maxQuotes < 1 then 1 else maxQuotes }

  function QuotesOf(source: string, maxQuotes: int): seq<string> {
    var all := Candidates(SplitLines(source));
    if |all| <= QuoteLimit(maxQuotes) then all else all[..QuoteLimit(maxQuotes)]
  }

  method FindVerbatimQuotes(source: string, maxQuotes: int) returns (quotes: seq<string>)
    ensures quotes == QuotesOf(source, maxQuotes)
  {
    quotes := [];
    var seen: set<string> := {};
    var lines := SplitLines(source);
    for i := 0 to |lines|
      invariant quotes == Candidates(lines[..i])
      invariant forall q :: q in seen <==> q in quotes
      invariant |quotes| < QuoteLimit(maxQuotes)
    {
      var line := Strip(lines[i]);
      NextCandidate(lines, i);
      if |line| >= MIN_QUOTE_CHARS && line !in seen {
        seen := seen + {line};
        quotes := quotes + [line];
        if |quotes| >= maxQuotes {
          LimitReached(source, maxQuotes, quotes, i + 1);
          return;
        }
      }
    }
    assert lines[..|lines|] == lines;
  }

  lemma LimitReached(source: string, maxQuotes: int, quotes: seq<string>, n: nat)
    requires n <= |SplitLines(source)| && quotes == Candidates(SplitLines(source)[..n])
             && |quotes| == QuoteLimit(maxQuotes)
    ensures QuotesOf(source, maxQuotes) == quotes
  {
    CandidatesGrow(SplitLines(source), n);
  }

  lemma NextCandidate(lines: seq<string>, i: nat)
    requires i < |lines|
    ensures var before, line := Candidates(lines[..i]), Strip(lines[i]);
            Candidates(lines[..i + 1]) ==
            if |line| >= MIN_QUOTE_CHARS && line !in before then before + [line] else before
  {
    assert lines[..i + 1][..i] == lines[..i];
  }

  /** Reading further lines only adds quotes at the end. */
  lemma {:induction false} CandidatesGrow(lines: seq<string>, n: nat)
    requires n <= |lines|
    ensures Candidates(lines[..n]) <= Candidates(lines)
    decreases |lines| - n
  {
    if n == |lines| {
      assert lines[..n] == lines;
    } else {
      NextCandidate(lines, n);
      CandidatesGrow(lines, n + 1);
    }
  }

  lemma {:induction false} CandidatesOccur(lines: seq<string>, source: string, q: string)
    requires forall k :: 0 <= k < |lines| ==> Occurs(lines[k], source)
    requires q in Candidates(lines)
    ensures Occurs(q, source) && |q| >= MIN_QUOTE_CHARS
    decreases |lines|
  {
    var n := |lines| - 1;
    if q in Candidates(lines[..n]) {
      assert forall k :: 0 <= k < n ==> lines[..n][k] == lines[k];
      CandidatesOccur(lines[..n], source, q);
    } else {
      StripOccurs(lines[n]);
      OccursTransitive(q, lines[n], source);
    }
  }

  /** Every quote the assembler takes is a substring of the source it was taken from. */
  lemma QuotesOccur(source: string, maxQuotes: int, q: string)
    requires q in QuotesOf(source, maxQuotes)
    ensures Occurs(q, source) && |q| >= MIN_QUOTE_CHARS
  {
    var lines := SplitLines(source);
    forall k | 0 <= k < |lines| ensures Occurs(lines[k], source) {
      assert lines[k] in lines;
      LinesOccur(source, lines[k]);
    }
    CandidatesOccur(lines, source, q);
  }

  /** So it passes the quote check against the same raw source. */
  lemma QuotesPass(lex: Lexicon, source: string, maxQuotes: int)
    ensures forall q :: q in QuotesOf(lex.clean(source), maxQuotes) ==> QuoteOk(q, lex.clean(source))
  {
    forall q | q in QuotesOf(lex.clean(source), maxQuotes) ensures QuoteOk(q, lex.clean(source)) {
      QuotesOccur(lex.clean(source), maxQuotes, q);
    }
  }

  /** The line on which a quote first stands. */
  ghost predicate FirstAt(lines: seq<string>, q: string, k: nat) {
    k < |lines| && Strip(lines[k]) == q && forall m :: 0 <= m < k ==> Strip(lines[m]) != q
  }

  ghost predicate Distinct(items: seq<string>) { forall i, j :: 0 <= i < j < |items| ==> items[i] != items[j] }

  ghost predicate StandsIn(lines: seq<string>, q: string) { exists k :: 0 <= k < |lines| && Strip(lines[k]) == q }

  lemma StandsNext(lines: seq<string>, q: string, last: string)
    requires lines != [] && last == Strip(lines[|lines| - 1])
    ensures StandsIn(lines, q) <==> StandsIn(lines[..|lines| - 1], q) || last == q
  {
    var n := |lines| - 1;
    assert forall k :: 0 <= k < n ==> lines[..n][k] == lines[k];
  }

  lemma AddedOnce(before: seq<string>, line: string, all: seq<string>)
    requires Distinct(before)
    requires all == if |line| >= 8 && line !in before then before + [line] else before
    ensures Distinct(all) && forall q :: q in all <==> q in before || (q == line && |line| >= 8)
  {
  }

  /** The candidates are the stripped lines of at least eight characters, each once. */
  lemma {:induction false} CandidatesAre(lines: seq<string>, q: string)
    ensures q in Candidates(lines) <==> |q| >= 8 && StandsIn(lines, q)
    ensures Distinct(Candidates(lines))
    decreases |lines|
  {
    if lines != [] {
      var before, line := Candidates(lines[..|lines| - 1]), Strip(lines[|lines| - 1]);
      CandidatesAre(lines[..|lines| - 1], q);
      AddedOnce(before, line, Candidates(lines));
      StandsNext(lines, q, line);
    }
  }

  /** They come in the order of the lines on which they first stand. */
  lemma {:induction false} CandidatesInOrder(lines: seq<string>, i: nat, j: nat, k: nat, l: nat)
    requires i < j < |Candidates(lines)|
    requires FirstAt(lines, Candidates(lines)[i], k) && FirstAt(lines, Candidates(lines)[j], l)
    ensures k < l
    decreases |lines|
  {
    var n := |lines| - 1;
    var all, before := Candidates(lines), Candidates(lines[..n]);
    CandidatesAre(lines[..n], all[i]);
    CandidatesAre(lines[..n], all[j]);
    assert all[i] == before[i];
    if j < |before| {
      CandidatesInOrder(lines[..n], i, j, k, l);
    }
  }

  /** At most the limit is taken, from the front; a limit below one is taken for one. */
  lemma QuotesAreFirst(source: string, maxQuotes: int)
    ensures var all, quotes := Candidates(SplitLines(source)), QuotesOf(source, maxQuotes);
            && quotes <= all
            && (quotes == all <==> |all| <= 1 || |all| <= maxQuotes)
            && (quotes != all ==> |quotes| == 1 >= maxQuotes || |quotes| == maxQuotes > 1)
  {
  }

  // --- the two-prefix protocol ---

  /** The value of the first line with this prefix and a nonempty value (a line setting an
      empty value leaves the section open). */
  function FirstValue(lines: seq<string>, prefix: string): string {
    if lines == [] then []
    else
      var line := Strip(lines[0]);
      if prefix <= line && Strip(line[|prefix|..]) != [] then Strip(line[|prefix|..])
      else FirstValue(lines[1..], prefix)
  }

  /** The value a line gives under a prefix, if it gives one. */
  predicate Gives(line: string, prefix: string, value: string) {
    value != [] && prefix <= Strip(line) && Strip(Strip(line)[|prefix|..]) == value
  }

  ghost predicate GivesNone(line: string, prefix: string) { forall value :: !Gives(line, prefix, value) }

  lemma HeadGives(lines: seq<string>, prefix: string, value: string)
    requires lines != []
    ensures Gives(lines[0], prefix, value) ==> FirstValue(lines, prefix) == value
    ensures GivesNone(lines[0], prefix) ==> FirstValue(lines, prefix) == FirstValue(lines[1..], prefix)
  {
    var line := Strip(lines[0]);
    if prefix <= line && Strip(line[|prefix|..]) != [] {
      assert Gives(lines[0], prefix, Strip(line[|prefix|..]));
    }
  }

  /** The value taken stands on the first line that gives one. */
  lemma {:induction false} FirstValueIs(lines: seq<string>, prefix: string, value: string, i: nat)
    requires i < |lines| && Gives(lines[i], prefix, value)
    requires forall k :: 0 <= k < i ==> GivesNone(lines[k], prefix)
    ensures FirstValue(lines, prefix) == value
    decreases i
  {
    HeadGives(lines, prefix, value);
    if i > 0 { FirstValueIs(lines[1..], prefix, value, i - 1); }
  }

  /** It is empty if no line gives one. */
  lemma {:induction false} NoValue(lines: seq<string>, prefix: string)
    requires forall k :: 0 <= k < |lines| ==> GivesNone(lines[k], prefix)
    ensures FirstValue(lines, prefix) == []
    decreases |lines|
  {
    if lines != [] {
      HeadGives(lines, prefix, []);
      NoValue(lines[1..], prefix);
    }
  }

  method ParseSections(lex: Lexicon, text: string) returns (intro: string, event: string)
    ensures intro == lex.clean(FirstValue(SplitLines(text), "INTRO:"))
    ensures event == lex.clean(FirstValue(SplitLines(text), "EVENT:"))
  {
    var rawIntro, rawEvent := "", "";
    var lines := SplitLines(text);
    for i := 0 to |lines|
      invariant rawIntro == [] ==> FirstValue(lines, "INTRO:") == FirstValue(lines[i..], "INTRO:")
      invariant rawIntro != [] ==> FirstValue(lines, "INTRO:") == rawIntro
      invariant rawEvent == [] ==> FirstValue(lines, "EVENT:") == FirstValue(lines[i..], "EVENT:")
      invariant rawEvent != [] ==> FirstValue(lines, "EVENT:") == rawEvent
    {
      var line := Strip(lines[i]);
      assert lines[i..][1..] == lines[i + 1..];
      NotBoth(line);
      if rawIntro == [] && "INTRO:" <= line {
        rawIntro := Strip(line[|"INTRO:"|..]);
      } else if rawEvent == [] && "EVENT:" <= line {
        rawEvent := Strip(line[|"EVENT:"|..]);
      }
    }
    intro, event := lex.clean(rawIntro), lex.clean(rawEvent);
  }

  lemma NotBoth(line: string)
    ensures !("INTRO:" <= line && "EVENT:" <= line)
  {
    if "INTRO:" <= line { assert line[0] == 'I'; }
    if "EVENT:" <= line { assert line[0] == 'E'; }
  }

  // --- the draft ---

  function Stub(title: string, intro: string, body: string, category: Option<string>, quotes: seq<string>,
                status: DraftStatus, reason: Option<string>, executed: bool): Draft {
    Draft(title, intro, [], body, [], [], [], "", [], [], [], [], category, quotes, status, reason, executed)
  }

  /** The draft a chat outcome yields; a chat that raises propagates to the caller. */
  function AssembledFrom(lex: Lexicon, source: string, title: string, category: Option<string>, chat: ChatResult)
      : Draft
  {
    var sanitized := lex.clean(source);
    var quotes := QuotesOf(sanitized, MAX_QUOTES);
    var intro := lex.clean(FirstValue(SplitLines(chat.text), "INTRO:"));
    var body := lex.clean(FirstValue(SplitLines(chat.text), "EVENT:"));
    if !chat.executed then
      Stub(title, DRY_RUN_INTRO, "", category, quotes, NotExecuted,
           Some("not_executed:dry_run"), false)
    else if chat.needsRevision then
      Stub(title, "", "", category, quotes, NeedsRevision, chat.revisionReason, true)
    else if !IsBlank(sanitized) && quotes == [] then
      Stub(title, "", "", category, quotes, NeedsRevision, Some("no_verbatim_quotes"), true)
    else if intro == [] && body == [] then
      Stub(title, "", "", category, quotes, NeedsRevision, Some("missing_section_markers"), true)
    else if intro == [] then
      Stub(title, "", "", category, quotes, NeedsRevision, Some("missing_intro"), true)
    else if body == [] then
      Stub(title, "", "", category, quotes, NeedsRevision, Some("missing_event"), true)
    else
      Stub(title, intro, body, category, quotes, Drafted, None, true)
  }

  method Assemble(lex: Lexicon, source: string, title: string, category: Option<string>,
                  chat: Result<ChatResult, Error>)
      returns (r: Result<Draft, Error>)
    ensures r == match chat
                 case Err(e) => Err(e)
                 case Ok(c) => Ok(AssembledFrom(lex, source, title, category, c))
  {
    var sanitized := lex.clean(source);
    if chat.Err? { return Err(chat.error); }
    var result := chat.value;
    var quotes := FindVerbatimQuotes(sanitized, MAX_QUOTES);
    if !result.executed {
      return Ok(Stub(title, DRY_RUN_INTRO, "", category, quotes, NotExecuted,
                     Some("not_executed:dry_run"), false));
    }
    if result.needsRevision {
      return Ok(Stub(title, "", "", category, quotes, NeedsRevision, result.revisionReason, true));
    }
    if !IsBlank(sanitized) && quotes == [] {
      return Ok(Stub(title, "", "", category, quotes, NeedsRevision, Some("no_verbatim_quotes"), true));
    }
    var intro, body := ParseSections(lex, result.text);
    var reason: Option<string> :=
      if intro == [] && body == [] then Some("missing_section_markers")
      else if intro == [] then Some("missing_intro")
      else if body == [] then Some("missing_event")
      else None;
    if reason.Some? {
      return Ok(Stub(title, "", "", category, quotes, NeedsRevision, reason, true));
    }
    return Ok(Stub(title, intro, body, category, quotes, Drafted, None, true));
  }

  /** Whatever the chat gives, the quotes are the first five of the source, and each is grounded. */
  lemma AssembledQuotes(lex: Lexicon, source: string, title: string, category: Option<string>, chat: ChatResult)
    ensures var quotes := AssembledFrom(lex, source, title, category, chat).quotes;
            quotes == QuotesOf(lex.clean(source), 5) && forall q :: q in quotes ==> QuoteOk(q, lex.clean(source))
  {
    QuotesPass(lex, source, MAX_QUOTES);
  }

  /** What the caller passed is kept, and the copywriter's sections are empty. */
  lemma AssembledKeeps(lex: Lexicon, source: string, title: string, category: Option<string>, chat: ChatResult)
    ensures var d := AssembledFrom(lex, source, title, category, chat);
            && d.title == title && d.category == category && d.executed == chat.executed
            && d.quickFacts == [] && d.faq == [] && d.summary == [] && d.tags == [] && d.keywords == []
            && d.imageSections == [] && d.videoSections == [] && d.subheads == [] && d.titleCandidates == []
  {
  }

  /** Only a clean executed chat with both sections is DRAFTED, with the sections it gave;
      everything else says why and leaves the text empty. */
  lemma AssembledFacts(lex: Lexicon, source: string, title: string, category: Option<string>, chat: ChatResult)
    ensures var d := AssembledFrom(lex, source, title, category, chat);
            var intro := lex.clean(FirstValue(SplitLines(chat.text), "INTRO:"));
            var body := lex.clean(FirstValue(SplitLines(chat.text), "EVENT:"));
            var noQuotes := d.quotes == [] && !IsBlank(lex.clean(source));
            && (d.status.NotExecuted? <==> !chat.executed)
            && (d.status.Drafted? <==>
                  chat.executed && !chat.needsRevision && !noQuotes && intro != [] && body != [])
            && (d.status.Drafted? ==> d.intro == intro && d.eventBody == body && d.reviewReason.None?)
            && (d.status.NotExecuted? ==>
                  d.intro == "[LLM not actually executed \U{2014} dry-run]" && d.eventBody == []
                  && d.reviewReason == Some("not_executed:dry_run"))
            && (d.status.NeedsRevision? ==>
                  d.intro == [] && d.eventBody == []
                  && Explains(d.reviewReason, chat, noQuotes, intro == [], body == []))
  {
  }

  /** The reason of a draft sent back: the chat's own one first, then the missing quotes, then the
      missing sections. */
  predicate Explains(reason: Option<string>, chat: ChatResult, noQuotes: bool, noIntro: bool, noBody: bool) {
    && (chat.needsRevision ==> reason == chat.revisionReason)
    && (!chat.needsRevision && noQuotes ==> reason == Some("no_verbatim_quotes"))
    && (!chat.needsRevision && !noQuotes && noIntro && noBody ==> reason == Some("missing_section_markers"))
    && (!chat.needsRevision && !noQuotes && noIntro && !noBody ==> reason == Some("missing_intro"))
    && (!chat.needsRevision && !noQuotes && !noIntro && noBody ==> reason == Some("missing_event"))
  }
}
