/** What a line of the copy means, and which tags and keywords come through. */
module CopyLaws {
  import opened Wrappers
  import opened Text
  import opened Copywriter
  import Seqs

  // --- lines ---

  /** The line gives this value under this key, in any case and with any padding. */
  ghost predicate Gives(a: Alphabet, line: string, name: string, value: string) {
    value != [] && exists key, rest ::
      line == KeyThen(key, rest) && ':' !in key && Upper(a, Strip(key)) == name && Strip(rest) == value
  }

  function KeyThen(key: string, rest: string): string { key + ":" + rest }

  lemma CutIs(line: string, i: nat)
    requires i == FirstColon(line) < |line|
    ensures line == KeyThen(line[..i], line[i + 1..]) && ':' !in line[..i]
  {
    Seqs.CutAround(line, i);
  }

  lemma CutThere(key: string, rest: string)
    requires ':' !in key
    ensures var line := KeyThen(key, rest);
            FirstColon(line) == |key| < |line| && line[..|key|] == key && line[|key| + 1..] == rest
  {
    FirstColonIs(KeyThen(key, rest), |key|);
  }

  lemma TokenParts(a: Alphabet, line: string, k: Kind, value: string) returns (i: nat)
    requires TokenIn(a, line) == Some(Token(k, value))
    ensures i == FirstColon(line) < |line| && value != []
    ensures Upper(a, Strip(line[..i])) == KeyText(k) && Strip(line[i + 1..]) == value
  {
    i := FirstColon(line);
  }

  lemma PartsGive(a: Alphabet, line: string, i: nat, name: string, value: string)
    requires i == FirstColon(line) < |line| && value != []
    requires Upper(a, Strip(line[..i])) == name && Strip(line[i + 1..]) == value
    ensures Gives(a, line, name, value)
  {
    CutIs(line, i);
  }

  lemma TokenGives(a: Alphabet, raw: string, k: Kind, value: string)
    requires TokenOf(a, raw) == Some(Token(k, value))
    ensures Gives(a, Strip(raw), KeyText(k), value)
  {
    var i := TokenParts(a, Strip(raw), k, value);
    PartsGive(a, Strip(raw), i, KeyText(k), value);
  }

  lemma GivesToken(a: Alphabet, raw: string, k: Kind, value: string)
    requires Gives(a, Strip(raw), KeyText(k), value)
    ensures TokenOf(a, raw) == Some(Token(k, value))
  {
    var line := Strip(raw);
    var key, rest :| line == KeyThen(key, rest) && ':' !in key && Upper(a, Strip(key)) == KeyText(k)
                     && Strip(rest) == value;
    CutThere(key, rest);
    KeysDiffer(k);
  }

  /** A line counts exactly when it gives a value under one of the keys, cut at its first colon. */
  lemma TokenMeans(a: Alphabet, raw: string, k: Kind, value: string)
    ensures TokenOf(a, raw) == Some(Token(k, value)) <==> Gives(a, Strip(raw), KeyText(k), value)
  {
    if TokenOf(a, raw) == Some(Token(k, value)) { TokenGives(a, raw, k, value); }
    if Gives(a, Strip(raw), KeyText(k), value) { GivesToken(a, raw, k, value); }
  }

  /** The keys. */
  lemma KeysAre(k: Kind)
    ensures match k
            case Subhead => KeyText(k) == "SUBHEAD"
            case Caption => KeyText(k) == "CAPTION"
            case Title => KeyText(k) == "TITLE"
            case FaqQ => KeyText(k) == "FAQ_Q"
            case FaqA => KeyText(k) == "FAQ_A"
            case QuickFact => KeyText(k) == "QUICKFACT"
            case Summary => KeyText(k) == "SUMMARY"
            case Tag => KeyText(k) == "TAG"
            case Category => KeyText(k) == "CATEGORY"
            case Keyword(d) => KeyText(k) == "KEYWORD_" + match d case Person => "PERSON" case Place => "PLACE"
                                                               case Platform => "PLATFORM" case Event => "EVENT"
                                                               case Type => "TYPE"
  {
  }

  // --- tags ---

  /** The tags that come through are the first five in which no hype word occurs, whatever the case. */
  lemma {:induction false} ObjectiveOnes(a: Alphabet, hype: seq<string>, tags: seq<string>, tag: string)
    ensures Objective(a, hype, []) == []
    ensures Objective(a, hype, tags + [tag]) ==
            Objective(a, hype, tags)
            + if exists w :: w in hype && Occurs(Lower(a, w), Lower(a, tag)) then [] else [tag]
    decreases |tags|
  {
    if tags == [] {
      Seqs.NothingInFront(tags, [tag]);
      assert [tag][1..] == [];
    } else {
      assert (tags + [tag])[0] == tags[0] && (tags + [tag])[1..] == tags[1..] + [tag];
      ObjectiveOnes(a, hype, tags[1..], tag);
      Seqs.ConcatAssoc(if HypeFree(a, hype, tags[0]) then [tags[0]] else [], Objective(a, hype, tags[1..]),
                       if HypeFree(a, hype, tag) then [tag] else []);
    }
  }

  lemma FirstFive(a: Alphabet, hype: seq<string>, tags: seq<string>)
    ensures var all, shown := Objective(a, hype, tags), CleanTags(a, hype, tags);
            shown <= all && |shown| == if |all| < 5 then |all| else 5
  {
  }

  // --- keywords ---

  /** The first three values of a dimension, labelled. */
  function Shown(name: string, values: seq<string>): seq<string> {
    seq(if |values| < 3 then |values| else 3, i requires 0 <= i < |values| => name + values[i])
  }

  lemma LabelledAre(d: Dim, values: seq<string>, name: string)
    requires name == Dimension(d) + ":"
    ensures Labelled(d, Take(values, 3)) == Shown(name, values)
  {
  }

  /** At most three keywords of each dimension come through, under its own label: person, place,
      platform, event and type, in this order. */
  lemma KeywordsAre(raw: Dim -> seq<string>)
    ensures CleanKeywords(DIMS, raw) ==
            Shown("人物:", raw(Person)) + Shown("地點:", raw(Place)) + Shown("平台:", raw(Platform))
            + Shown("事件:", raw(Event)) + Shown("內容類型:", raw(Type))
  {
    LabelledAre(Person, raw(Person), "人物:");
    LabelledAre(Place, raw(Place), "地點:");
    LabelledAre(Platform, raw(Platform), "平台:");
    LabelledAre(Event, raw(Event), "事件:");
    LabelledAre(Type, raw(Type), "內容類型:");
    Unrolled(raw);
  }

  lemma Unrolled(raw: Dim -> seq<string>)
    ensures CleanKeywords(DIMS, raw) ==
            Labelled(Person, Take(raw(Person), 3)) + Labelled(Place, Take(raw(Place), 3))
            + Labelled(Platform, Take(raw(Platform), 3)) + Labelled(Event, Take(raw(Event), 3))
            + Labelled(Type, Take(raw(Type), 3))
  {
    assert DIMS[1..] == [Place, Platform, Event, Type];
    assert DIMS[1..][1..] == [Platform, Event, Type];
    assert DIMS[1..][1..][1..] == [Event, Type];
    assert DIMS[1..][1..][1..][1..] == [Type];
  }
}
