/** The canonical body text a review packet freezes, and what edits its hash reveals. */
module ReviewPacket {
  import opened Wrappers
  import opened Text
  import opened Drafts
  import Seqs

  // --- the bound parts, field by field ---

  const FIELDS := 9

  function Singles(texts: seq<string>): (r: seq<seq<string>>)
    ensures |r| == |texts| && forall i :: 0 <= i < |r| ==> r[i] == [texts[i]]
  {
    seq(|texts|, i requires 0 <= i < |texts| => [texts[i]])
  }

  function FaqParts(faq: seq<FaqItem>): seq<seq<string>> {
    seq(|faq|, i requires 0 <= i < |faq| => [faq[i].question, faq[i].answer])
  }

  /** The items of one bound field, each as the text parts it contributes. */
  function Items(d: Draft, field: nat): seq<seq<string>>
    requires field < FIELDS
  {
    match field
    case 0 => [[d.intro]]
    case 1 => [[d.eventBody]]
    case 2 => [[d.summary]]
    case 3 => Singles(d.quickFacts)
    case 4 => FaqParts(d.faq)
    case 5 => Singles(d.subheads)
    case 6 => Singles(Captions(d.imageSections))
    case 7 => Singles(Captions(d.videoSections))
    case _ => Singles(d.tags)
  }

  function Flatten(items: seq<seq<string>>): seq<string> {
    if items == [] then [] else items[0] + Flatten(items[1..])
  }

  /** The parts of the fields lo..hi. */
  function PartsOf(d: Draft, lo: nat, hi: nat): seq<string>
    requires lo <= hi <= FIELDS
  {
    Flatten(AllItems(d, lo, hi))
  }

  function AllItems(d: Draft, lo: nat, hi: nat): seq<seq<string>>
    requires lo <= hi <= FIELDS
  {
    if lo == hi then [] else AllItems(d, lo, hi - 1) + Items(d, hi - 1)
  }

  function BodyText(d: Draft): string { Join("\n", NonEmpty(PartsOf(d, 0, FIELDS))) }

  /** _draft_body_text: the list is extended section by section, then joined. */
  method DraftBodyText(d: Draft) returns (text: string)
    ensures text == BodyText(d)
    ensures text == Join("\n", NonEmpty([d.intro, d.eventBody, d.summary] + d.quickFacts + FaqTexts(d.faq) + d.subheads
                                        + Captions(d.imageSections) + Captions(d.videoSections) + d.tags))
  {
    var parts := [d.intro, d.eventBody, d.summary];
    FirstThree(d);
    parts := parts + d.quickFacts;
    FieldAdds(d, 3, d.quickFacts);
    FaqIsFlat(d.faq);
    parts := AddFaq(parts, d.faq);
    PartsGrow(d, 4);
    parts := parts + d.subheads;
    FieldAdds(d, 5, d.subheads);
    parts := parts + Captions(d.imageSections);
    FieldAdds(d, 6, Captions(d.imageSections));
    parts := parts + Captions(d.videoSections);
    FieldAdds(d, 7, Captions(d.videoSections));
    parts := parts + d.tags;
    FieldAdds(d, 8, d.tags);
    text := Join("\n", NonEmpty(parts));
  }

  /** A question and its answer for each item. */
  method AddFaq(before: seq<string>, faq: seq<FaqItem>) returns (parts: seq<string>)
    ensures parts == before + Flatten(FaqParts(faq))
  {
    parts := before;
    for i := 0 to |faq|
      invariant parts == before + Flatten(FaqParts(faq)[..i])
    {
      FlattenNext(FaqParts(faq), i);
      parts := parts + [faq[i].question];
      parts := parts + [faq[i].answer];
    }
    assert FaqParts(faq)[..|faq|] == FaqParts(faq);
  }

  lemma {:induction false} FaqIsFlat(faq: seq<FaqItem>)
    ensures Flatten(FaqParts(faq)) == FaqTexts(faq)
    decreases |faq|
  {
    if faq != [] {
      FaqIsFlat(faq[1..]);
      assert FaqParts(faq)[1..] == FaqParts(faq[1..]);
    }
  }

  lemma FieldAdds(d: Draft, k: nat, texts: seq<string>)
    requires k < FIELDS && Items(d, k) == Singles(texts)
    ensures PartsOf(d, 0, k + 1) == PartsOf(d, 0, k) + texts
  {
    PartsGrow(d, k);
    FlattenSingles(texts);
  }

  lemma FirstThree(d: Draft)
    ensures PartsOf(d, 0, 3) == [d.intro, d.eventBody, d.summary]
  {
    FlattenOne([d.intro]);
    FlattenOne([d.eventBody]);
    FlattenOne([d.summary]);
    assert PartsOf(d, 0, 0) == [];
    PartsGrow(d, 0);
    PartsGrow(d, 1);
    PartsGrow(d, 2);
  }

  lemma FlattenOne(x: seq<string>)
    ensures Flatten([x]) == x
  {
    assert [x][1..] == [] && x + Flatten([]) == x;
  }

  lemma FlattenNext(items: seq<seq<string>>, i: nat)
    requires i < |items|
    ensures Flatten(items[..i + 1]) == Flatten(items[..i]) + items[i]
  {
    Seqs.TakeNext(items, i);
    FlattenConcat(items[..i], [items[i]]);
    FlattenOne(items[i]);
  }

  lemma {:induction false} ItemsSplit(d: Draft, lo: nat, mid: nat, hi: nat)
    requires lo <= mid <= hi <= FIELDS
    ensures AllItems(d, lo, hi) == AllItems(d, lo, mid) + AllItems(d, mid, hi)
    decreases hi
  {
    if mid < hi {
      ItemsSplit(d, lo, mid, hi - 1);
      Seqs.ConcatAssoc(AllItems(d, lo, mid), AllItems(d, mid, hi - 1), Items(d, hi - 1));
    } else {
      assert AllItems(d, mid, hi) == [];
    }
  }

  lemma PartsSplit(d: Draft, lo: nat, mid: nat, hi: nat)
    requires lo <= mid <= hi <= FIELDS
    ensures PartsOf(d, lo, hi) == PartsOf(d, lo, mid) + PartsOf(d, mid, hi)
  {
    ItemsSplit(d, lo, mid, hi);
    FlattenConcat(AllItems(d, lo, mid), AllItems(d, mid, hi));
  }

  lemma PartsGrow(d: Draft, k: nat)
    requires k < FIELDS
    ensures PartsOf(d, 0, k + 1) == PartsOf(d, 0, k) + Flatten(Items(d, k))
  {
    FlattenConcat(AllItems(d, 0, k), Items(d, k));
  }

  lemma {:induction false} FlattenSingles(texts: seq<string>)
    ensures Flatten(Singles(texts)) == texts
    decreases |texts|
  {
    if texts != [] {
      assert Singles(texts)[1..] == Singles(texts[1..]);
      FlattenSingles(texts[1..]);
    }
  }

  lemma {:induction false} FlattenConcat(a: seq<seq<string>>, b: seq<seq<string>>)
    ensures Flatten(a + b) == Flatten(a) + Flatten(b)
    decreases |a|
  {
    if a == [] {
      Seqs.NothingInFront(a, b);
      Seqs.NothingInFront(Flatten(a), Flatten(b));
    } else {
      Seqs.CutConcat(a, b, 0);
      FlattenConcat(a[1..], b);
      Seqs.ConcatAssoc(a[0], Flatten(a[1..]), Flatten(b));
    }
  }

  // --- one change in a list of parts always shows in the joined text ---

  function Shown(parts: seq<string>): string { Join("\n", NonEmpty(parts)) }

  /** Text contributed by the parts, each followed by one separator. */
  function Weight(parts: seq<string>): nat {
    if parts == [] then 0
    else (if parts[0] == [] then 0 else |parts[0]| + 1) + Weight(parts[1..])
  }

  lemma {:induction false} WeightConcat(a: seq<string>, b: seq<string>)
    ensures Weight(a + b) == Weight(a) + Weight(b)
    decreases |a|
  {
    if a == [] {
      Seqs.NothingInFront(a, b);
    } else {
      Seqs.CutConcat(a, b, 0);
      WeightConcat(a[1..], b);
    }
  }

  lemma {:induction false} ShownLength(parts: seq<string>)
    ensures Weight(parts) == if NonEmpty(parts) == [] then 0 else |Shown(parts)| + 1
    decreases |parts|
  {
    if parts != [] {
      ShownLength(parts[1..]);
      var rest := NonEmpty(parts[1..]);
      if parts[0] != [] {
        assert ([parts[0]] + rest)[1..] == rest;
      }
    }
  }

  lemma {:induction false} NonEmptyConcat(a: seq<string>, b: seq<string>)
    ensures NonEmpty(a + b) == NonEmpty(a) + NonEmpty(b)
    decreases |a|
  {
    if a == [] {
      Seqs.NothingInFront(a, b);
      Seqs.NothingInFront(NonEmpty(a), NonEmpty(b));
    } else {
      Seqs.CutConcat(a, b, 0);
      NonEmptyConcat(a[1..], b);
      if a[0] != [] { Seqs.ConcatAssoc([a[0]], NonEmpty(a[1..]), NonEmpty(b)); }
    }
  }

  lemma {:induction false} JoinConcat(a: seq<string>, b: seq<string>)
    requires a != [] && b != []
    ensures Join("\n", a + b) == Join("\n", a) + "\n" + Join("\n", b)
    decreases |a|
  {
    if |a| == 1 {
      assert (a + b)[0] == a[0] && (a + b)[1..] == b;
    } else {
      Seqs.CutConcat(a, b, 0);
      JoinConcat(a[1..], b);
      assert a[0] + "\n" + (Join("\n", a[1..]) + "\n" + Join("\n", b))
          == a[0] + "\n" + Join("\n", a[1..]) + "\n" + Join("\n", b);
    }
  }

  function Before(parts: seq<string>): string {
    if NonEmpty(parts) == [] then [] else Shown(parts) + "\n"
  }

  function Behind(parts: seq<string>): string {
    if NonEmpty(parts) == [] then [] else "\n" + Shown(parts)
  }

  /** A nonempty part stands between two texts that do not depend on it. */
  lemma ShownAround(a: seq<string>, p: string, b: seq<string>)
    requires p != []
    ensures Shown(a + [p] + b) == Before(a) + p + Behind(b)
  {
    NonEmptyConcat(a + [p], b);
    NonEmptyConcat(a, [p]);
    assert [p][1..] == [] && NonEmpty([p]) == [p];
    var x, y := NonEmpty(a), NonEmpty(b);
    assert Join("\n", [p]) == p;
    if x != [] { JoinConcat(x, [p]); } else { assert x + [p] == [p]; }
    if y != [] { JoinConcat(x + [p], y); } else { assert x + [p] + y == x + [p]; }
  }

  lemma SamePlace(a: string, p: string, q: string, b: string)
    requires a + p + b == a + q + b
    ensures p == q
  {
    var s := a + p + b;
    assert |p| == |q|;
    assert s[|a|..|a| + |p|] == p;
    assert (a + q + b)[|a|..|a| + |q|] == q;
  }

  /** Replacing one part by a different one changes the text. */
  lemma ReplaceShows(a: seq<string>, p: string, q: string, b: seq<string>)
    requires p != q
    ensures Shown(a + [p] + b) != Shown(a + [q] + b)
  {
    if p == [] || q == [] {
      WeighBlock(a, [p], b);
      WeighBlock(a, [q], b);
      assert [p][1..] == [] && [q][1..] == [];
    } else if Shown(a + [p] + b) == Shown(a + [q] + b) {
      ShownAround(a, p, b);
      ShownAround(a, q, b);
      SamePlace(Before(a), p, q, Behind(b));
    }
  }

  lemma WeighBlock(a: seq<string>, x: seq<string>, b: seq<string>)
    ensures Weight(a + x + b) == Weight(a) + Weight(x) + Weight(b)
    ensures Weight(a + x + b) == if NonEmpty(a + x + b) == [] then 0 else |Shown(a + x + b)| + 1
    ensures NonEmpty(a + x + b) == [] ==> Shown(a + x + b) == []
    ensures NonEmpty(a + x + b) != [] ==> Shown(a + x + b) != []
  {
    WeightConcat(a + x, b);
    WeightConcat(a, x);
    ShownLength(a + x + b);
    ShownNonEmpty(a + x + b);
  }

  lemma {:induction false} ShownNonEmpty(parts: seq<string>)
    ensures NonEmpty(parts) != [] ==> Shown(parts) != []
    decreases |parts|
  {
    if parts != [] {
      ShownNonEmpty(parts[1..]);
      if parts[0] != [] { assert ([parts[0]] + NonEmpty(parts[1..]))[0] == parts[0]; }
    }
  }

  lemma Weighs(parts: seq<string>)
    ensures Weight(parts) == if NonEmpty(parts) == [] then 0 else |Shown(parts)| + 1
    ensures NonEmpty(parts) == [] <==> Shown(parts) == []
  {
    ShownLength(parts);
    ShownNonEmpty(parts);
  }

  lemma SameShownSameWeight(p: seq<string>, q: seq<string>)
    requires Shown(p) == Shown(q)
    ensures Weight(p) == Weight(q)
  {
    Weighs(p);
    Weighs(q);
  }

  lemma InsertWeighs(a: seq<string>, x: seq<string>, b: seq<string>)
    requires NonEmpty(x) != []
    ensures Weight(a + x + b) > Weight(a + b)
  {
    WeightConcat(a + x, b);
    WeightConcat(a, x);
    WeightConcat(a, b);
    Weighs(x);
  }

  /** Inserting (or removing) parts with some text in them changes the text. */
  lemma InsertShows(a: seq<string>, x: seq<string>, b: seq<string>)
    requires NonEmpty(x) != []
    ensures Shown(a + x + b) != Shown(a + b)
  {
    InsertWeighs(a, x, b);
    if Shown(a + x + b) == Shown(a + b) { SameShownSameWeight(a + x + b, a + b); }
  }

  // --- edits of a draft ---

  ghost predicate SameOutside(d: Draft, e: Draft, field: nat) {
    forall g: nat :: g < FIELDS && g != field ==> Items(d, g) == Items(e, g)
  }

  /** The drafts differ in one item of one field: its part j is replaced by the text q. */
  ghost predicate PartReplaced(d: Draft, e: Draft, field: nat, i: nat, j: nat, q: string) {
    && field < FIELDS && SameOutside(d, e, field)
    && i < |Items(d, field)| && j < |Items(d, field)[i]|
    && Items(e, field) == Items(d, field)[i := Items(d, field)[i][j := q]]
  }

  /** The second draft has one more item, x, in one field. */
  ghost predicate ItemInserted(d: Draft, e: Draft, field: nat, i: nat, x: seq<string>) {
    && field < FIELDS && SameOutside(d, e, field)
    && i <= |Items(d, field)|
    && Items(e, field) == Items(d, field)[..i] + [x] + Items(d, field)[i..]
  }

  lemma SameParts(d: Draft, e: Draft, lo: nat, hi: nat)
    requires lo <= hi <= FIELDS && forall g: nat :: lo <= g < hi ==> Items(d, g) == Items(e, g)
    ensures PartsOf(d, lo, hi) == PartsOf(e, lo, hi)
  {
    SameItems(d, e, lo, hi);
  }

  lemma {:induction false} SameItems(d: Draft, e: Draft, lo: nat, hi: nat)
    requires lo <= hi <= FIELDS && forall g: nat :: lo <= g < hi ==> Items(d, g) == Items(e, g)
    ensures AllItems(d, lo, hi) == AllItems(e, lo, hi)
    decreases hi
  {
    if lo < hi {
      SameItems(d, e, lo, hi - 1);
      OneMoreField(d, lo, hi, Items(d, hi - 1));
      OneMoreField(e, lo, hi, Items(d, hi - 1));
    }
  }

  lemma OneMoreField(d: Draft, lo: nat, hi: nat, items: seq<seq<string>>)
    requires lo < hi <= FIELDS && Items(d, hi - 1) == items
    ensures AllItems(d, lo, hi) == AllItems(d, lo, hi - 1) + items
  {
  }

  lemma PartsAround(d: Draft, field: nat)
    requires field < FIELDS
    ensures PartsOf(d, 0, FIELDS) == PartsOf(d, 0, field) + Flatten(Items(d, field)) + PartsOf(d, field + 1, FIELDS)
  {
    PartsSplit(d, 0, field + 1, FIELDS);
    PartsGrow(d, field);
  }

  /** Both drafts' parts with everything outside one field factored out. */
  lemma SplitField(d: Draft, e: Draft, field: nat) returns (l: seq<string>, r: seq<string>)
    requires field < FIELDS && SameOutside(d, e, field)
    ensures PartsOf(d, 0, FIELDS) == l + Flatten(Items(d, field)) + r
    ensures PartsOf(e, 0, FIELDS) == l + Flatten(Items(e, field)) + r
  {
    PartsAround(d, field);
    PartsAround(e, field);
    SameParts(d, e, 0, field);
    SameParts(d, e, field + 1, FIELDS);
    l, r := PartsOf(d, 0, field), PartsOf(d, field + 1, FIELDS);
  }

  lemma FlattenAt(items: seq<seq<string>>, i: nat)
    requires i < |items|
    ensures Flatten(items) == Flatten(items[..i]) + items[i] + Flatten(items[i + 1..])
  {
    Seqs.SplitAt(items, i + 1);
    FlattenConcat(items[..i + 1], items[i + 1..]);
    FlattenNext(items, i);
  }

  lemma Regroup(l: seq<string>, a: seq<string>, x: seq<string>, b: seq<string>, r: seq<string>)
    ensures l + (a + x + b) + r == (l + a) + x + (b + r)
  {
  }

  lemma RegroupTwo(l: seq<string>, a: seq<string>, b: seq<string>, r: seq<string>)
    ensures l + (a + b) + r == (l + a) + (b + r)
  {
  }

  /** Where one part of one item stands among the flattened parts, whatever its text. */
  lemma PartPlace(xs: seq<seq<string>>, i: nat, j: nat, q: string) returns (a: seq<string>, b: seq<string>)
    requires i < |xs| && j < |xs[i]|
    ensures Flatten(xs) == a + [xs[i][j]] + b
    ensures Flatten(xs[i := xs[i][j := q]]) == a + [q] + b
  {
    var x := xs[i];
    var y := x[j := q];
    var ys := xs[i := y];
    FlattenAt(xs, i);
    FlattenAt(ys, i);
    assert ys[..i] == xs[..i] && ys[i + 1..] == xs[i + 1..];
    var u, v := Flatten(xs[..i]), Flatten(xs[i + 1..]);
    ReplaceSplit(x, j, q);
    Regroup(u, x[..j], [x[j]], x[j + 1..], v);
    Regroup(u, x[..j], [q], x[j + 1..], v);
    a, b := u + x[..j], x[j + 1..] + v;
  }

  lemma ReplaceSplit(x: seq<string>, j: nat, q: string)
    requires j < |x|
    ensures x == x[..j] + [x[j]] + x[j + 1..]
    ensures x[j := q] == x[..j] + [q] + x[j + 1..]
  {
  }

  /** Changing any one bound text part changes the text the freeze hashes. */
  lemma EveryReplacementShows(d: Draft, e: Draft, field: nat, i: nat, j: nat, q: string)
    requires PartReplaced(d, e, field, i, j, q) && q != Items(d, field)[i][j]
    ensures BodyText(d) != BodyText(e)
  {
    var l, r := SplitField(d, e, field);
    var p := Items(d, field)[i][j];
    var a, b := PartPlace(Items(d, field), i, j, q);
    Regroup(l, a, [p], b, r);
    Regroup(l, a, [q], b, r);
    ReplaceShows(l + a, p, q, b + r);
  }

  lemma FlattenInsert(xs: seq<seq<string>>, i: nat, x: seq<string>)
    requires i <= |xs|
    ensures Flatten(xs) == Flatten(xs[..i]) + Flatten(xs[i..])
    ensures Flatten(xs[..i] + [x] + xs[i..]) == Flatten(xs[..i]) + x + Flatten(xs[i..])
  {
    Seqs.SplitAt(xs, i);
    FlattenConcat(xs[..i], xs[i..]);
    FlattenConcat(xs[..i] + [x], xs[i..]);
    FlattenConcat(xs[..i], [x]);
    FlattenOne(x);
  }

  /** Inserting or removing one item with text in it changes the text the freeze hashes. */
  lemma EveryInsertionShows(d: Draft, e: Draft, field: nat, i: nat, x: seq<string>)
    requires ItemInserted(d, e, field, i, x) && NonEmpty(x) != []
    ensures BodyText(d) != BodyText(e)
  {
    var l, r := SplitField(d, e, field);
    var xs := Items(d, field);
    FlattenInsert(xs, i, x);
    var a, b := Flatten(xs[..i]), Flatten(xs[i..]);
    Regroup(l, a, x, b, r);
    RegroupTwo(l, a, b, r);
    InsertShows(l + a, x, b + r);
  }

  // --- the parts a person edits ---

  /** The bound text parts of a draft by name. */
  datatype Part =
    | IntroPart | BodyPart | SummaryPart
    | FactPart(at: nat) | QuestionPart(at: nat) | AnswerPart(at: nat) | SubheadPart(at: nat)
    | ImageCaptionPart(at: nat) | VideoCaptionPart(at: nat) | TagPart(at: nat)

  predicate HasPart(d: Draft, p: Part) {
    match p
    case IntroPart => true
    case BodyPart => true
    case SummaryPart => true
    case FactPart(i) => i < |d.quickFacts|
    case QuestionPart(i) => i < |d.faq|
    case AnswerPart(i) => i < |d.faq|
    case SubheadPart(i) => i < |d.subheads|
    case ImageCaptionPart(i) => i < |d.imageSections|
    case VideoCaptionPart(i) => i < |d.videoSections|
    case TagPart(i) => i < |d.tags|
  }

  function TextAt(d: Draft, p: Part): string
    requires HasPart(d, p)
  {
    match p
    case IntroPart => d.intro
    case BodyPart => d.eventBody
    case SummaryPart => d.summary
    case FactPart(i) => d.quickFacts[i]
    case QuestionPart(i) => d.faq[i].question
    case AnswerPart(i) => d.faq[i].answer
    case SubheadPart(i) => d.subheads[i]
    case ImageCaptionPart(i) => d.imageSections[i].caption
    case VideoCaptionPart(i) => d.videoSections[i].caption
    case TagPart(i) => d.tags[i]
  }

  /** The draft with one part rewritten. */
  function Edited(d: Draft, p: Part, x: string): Draft
    requires HasPart(d, p)
  {
    match p
    case IntroPart => d.(intro := x)
    case BodyPart => d.(eventBody := x)
    case SummaryPart => d.(summary := x)
    case FactPart(i) => d.(quickFacts := d.quickFacts[i := x])
    case QuestionPart(i) => d.(faq := d.faq[i := d.faq[i].(question := x)])
    case AnswerPart(i) => d.(faq := d.faq[i := d.faq[i].(answer := x)])
    case SubheadPart(i) => d.(subheads := d.subheads[i := x])
    case ImageCaptionPart(i) => d.(imageSections := d.imageSections[i := d.imageSections[i].(caption := x)])
    case VideoCaptionPart(i) => d.(videoSections := d.videoSections[i := d.videoSections[i].(caption := x)])
    case TagPart(i) => d.(tags := d.tags[i := x])
  }

  /** Where a part stands: its field, its item, and its place in the item. */
  function PlaceOf(p: Part): (nat, nat, nat) {
    match p
    case IntroPart => (0, 0, 0)
    case BodyPart => (1, 0, 0)
    case SummaryPart => (2, 0, 0)
    case FactPart(i) => (3, i, 0)
    case QuestionPart(i) => (4, i, 0)
    case AnswerPart(i) => (4, i, 1)
    case SubheadPart(i) => (5, i, 0)
    case ImageCaptionPart(i) => (6, i, 0)
    case VideoCaptionPart(i) => (7, i, 0)
    case TagPart(i) => (8, i, 0)
  }

  lemma SinglesUpdate(texts: seq<string>, i: nat, x: string)
    requires i < |texts|
    ensures Singles(texts[i := x]) == Singles(texts)[i := [x]]
    ensures Singles(texts)[i][0 := x] == [x]
  {
  }

  lemma CaptionsUpdate(sections: seq<MediaSection>, i: nat, x: string)
    requires i < |sections|
    ensures Captions(sections[i := sections[i].(caption := x)]) == Captions(sections)[i := x]
  {
  }

  /** Rewriting one named part replaces one part of one item of one field. */
  ghost predicate IsReplacement(d: Draft, p: Part, x: string)
    requires HasPart(d, p)
  {
    var (field, i, j) := PlaceOf(p);
    PartReplaced(d, Edited(d, p, x), field, i, j, x) && Items(d, field)[i][j] == TextAt(d, p)
  }

  lemma TextEdit(d: Draft, p: Part, x: string)
    requires p.IntroPart? || p.BodyPart? || p.SummaryPart?
    ensures IsReplacement(d, p, x)
  {
    assert [TextAt(d, p)][0 := x] == [x];
  }

  lemma ListEdit(d: Draft, p: Part, x: string)
    requires HasPart(d, p) && (p.FactPart? || p.SubheadPart? || p.TagPart?)
    ensures IsReplacement(d, p, x)
  {
    match p {
      case FactPart(i) => SinglesUpdate(d.quickFacts, i, x);
      case SubheadPart(i) => SinglesUpdate(d.subheads, i, x);
      case TagPart(i) => SinglesUpdate(d.tags, i, x);
    }
  }

  lemma CaptionEdit(d: Draft, p: Part, x: string)
    requires HasPart(d, p) && (p.ImageCaptionPart? || p.VideoCaptionPart?)
    ensures IsReplacement(d, p, x)
  {
    var sections := if p.ImageCaptionPart? then d.imageSections else d.videoSections;
    CaptionsUpdate(sections, p.at, x);
    SinglesUpdate(Captions(sections), p.at, x);
  }

  lemma EditIsReplacement(d: Draft, p: Part, x: string)
    requires HasPart(d, p)
    ensures IsReplacement(d, p, x)
  {
    if p.IntroPart? || p.BodyPart? || p.SummaryPart? {
      TextEdit(d, p, x);
    } else if p.FactPart? || p.SubheadPart? || p.TagPart? {
      ListEdit(d, p, x);
    } else if p.QuestionPart? {
      FaqEdit(d, p.at, x, d.faq[p.at].answer, 0);
    } else if p.AnswerPart? {
      FaqEdit(d, p.at, d.faq[p.at].question, x, 1);
    } else {
      CaptionEdit(d, p, x);
    }
  }

  lemma FaqEdit(d: Draft, i: nat, question: string, answer: string, j: nat)
    requires i < |d.faq| && j < 2
    requires if j == 0 then answer == d.faq[i].answer else question == d.faq[i].question
    ensures var e := d.(faq := d.faq[i := FaqItem(question, answer)]);
            PartReplaced(d, e, 4, i, j, if j == 0 then question else answer)
  {
    var e := d.(faq := d.faq[i := FaqItem(question, answer)]);
    assert Items(d, 4)[i][j := if j == 0 then question else answer] == [question, answer];
    assert Items(e, 4) == Items(d, 4)[i := [question, answer]];
  }

  /** Rewriting any one bound part to a different text changes the text the freeze hashes. */
  lemma EveryEditShows(d: Draft, p: Part, x: string)
    requires HasPart(d, p) && TextAt(d, p) != x
    ensures BodyText(Edited(d, p, x)) != BodyText(d)
  {
    var (field, i, j) := PlaceOf(p);
    EditIsReplacement(d, p, x);
    EveryReplacementShows(d, Edited(d, p, x), field, i, j, x);
  }

  // --- which drafts read the same ---

  /** The lines of a text: what stands between its line feeds. */
  function SplitLf(s: string): (lines: seq<string>)
    ensures lines != []
  {
    if s == [] then [[]]
    else
      var rest := SplitLf(s[1..]);
      if s[0] == '\n' then [[]] + rest else [[s[0]] + rest[0]] + rest[1..]
  }

  function AllLines(parts: seq<string>): seq<string> {
    if parts == [] then [] else SplitLf(parts[0]) + AllLines(parts[1..])
  }

  /** The lines a draft has for its reader, in the order of its bound parts. */
  function TextLines(d: Draft): seq<string> { AllLines(NonEmpty(PartsOf(d, 0, FIELDS))) }

  lemma {:induction false} SplitLfJoin(a: string, b: string)
    ensures SplitLf(a + "\n" + b) == SplitLf(a) + SplitLf(b)
    decreases |a|
  {
    var s := a + "\n" + b;
    if a == [] {
      assert s[0] == '\n' && s[1..] == b;
    } else {
      assert s[0] == a[0] && s[1..] == a[1..] + "\n" + b;
      SplitLfJoin(a[1..], b);
      LineInFront(a[0], SplitLf(a[1..]), SplitLf(b));
    }
  }

  lemma LineInFront(c: char, x: seq<string>, y: seq<string>)
    requires x != []
    ensures [[]] + (x + y) == [[]] + x + y
    ensures [[c] + (x + y)[0]] + (x + y)[1..] == [[c] + x[0]] + x[1..] + y
  {
    assert (x + y)[1..] == x[1..] + y;
  }

  lemma {:induction false} JoinLines(s: string)
    ensures Join("\n", SplitLf(s)) == s
    decreases |s|
  {
    if s != [] {
      JoinLines(s[1..]);
      var rest := SplitLf(s[1..]);
      assert s == [s[0]] + s[1..];
      if s[0] == '\n' {
        assert ([[]] + rest)[1..] == rest;
        assert [] + "\n" + Join("\n", rest) == [s[0]] + s[1..];
      } else {
        JoinGrows(s[0], rest);
      }
    }
  }

  lemma JoinGrows(c: char, rest: seq<string>)
    requires rest != []
    ensures Join("\n", [[c] + rest[0]] + rest[1..]) == [c] + Join("\n", rest)
  {
    var all := [[c] + rest[0]] + rest[1..];
    assert all[1..] == rest[1..] && |all| == |rest|;
    if |rest| > 1 {
      assert [c] + rest[0] + "\n" + Join("\n", rest[1..]) == [c] + (rest[0] + "\n" + Join("\n", rest[1..]));
    }
  }

  lemma {:induction false} LinesOfJoin(parts: seq<string>)
    requires parts != []
    ensures SplitLf(Join("\n", parts)) == AllLines(parts)
    decreases |parts|
  {
    if |parts| == 1 {
      assert parts[1..] == [];
      assert SplitLf(parts[0]) + [] == SplitLf(parts[0]);
    } else {
      LinesOfJoin(parts[1..]);
      SplitLfJoin(parts[0], Join("\n", parts[1..]));
    }
  }

  /** What joined parts show determines their lines and is determined by them. */
  lemma SameShownExactlyWhen(p: seq<string>, q: seq<string>)
    ensures Shown(p) == Shown(q) <==> AllLines(NonEmpty(p)) == AllLines(NonEmpty(q))
  {
    var x, y := NonEmpty(p), NonEmpty(q);
    ShownNonEmpty(p);
    ShownNonEmpty(q);
    if x != [] { LinesOfJoin(x); JoinLines(Shown(p)); }
    if y != [] { LinesOfJoin(y); JoinLines(Shown(q)); }
  }

  /** Two drafts freeze to the same text exactly when they have the same lines in the same order,
      whichever parts these lines belong to. */
  lemma SameTextExactlyWhen(d: Draft, e: Draft)
    ensures BodyText(d) == BodyText(e) <==> TextLines(d) == TextLines(e)
  {
    SameShownExactlyWhen(PartsOf(d, 0, FIELDS), PartsOf(e, 0, FIELDS));
  }

  /** So several edits at once can cancel out, in any draft: moving the end of the intro into an
      empty event body leaves the lines as they were. */
  lemma JoinIsNotInjective(d: Draft, x: string, y: string)
    requires x != [] && y != []
    ensures BodyText(d.(intro := x + "\n" + y, eventBody := "")) == BodyText(d.(intro := x, eventBody := y))
    ensures d.(intro := x + "\n" + y, eventBody := "") != d.(intro := x, eventBody := y)
  {
    var e, f := d.(intro := x + "\n" + y, eventBody := ""), d.(intro := x, eventBody := y);
    FirstTwo(e);
    FirstTwo(f);
    assert forall g: nat :: 2 <= g < FIELDS ==> Items(e, g) == Items(f, g);
    SameParts(e, f, 2, FIELDS);
    LinesMoved(x, y, PartsOf(e, 2, FIELDS));
    SameTextExactlyWhen(e, f);
  }

  lemma FirstTwo(d: Draft)
    ensures PartsOf(d, 0, FIELDS) == [d.intro, d.eventBody] + PartsOf(d, 2, FIELDS)
  {
    FlattenOne([d.intro]);
    FlattenOne([d.eventBody]);
    assert PartsOf(d, 0, 0) == [];
    PartsGrow(d, 0);
    PartsGrow(d, 1);
    PartsSplit(d, 0, 2, FIELDS);
  }

  lemma LinesMoved(x: string, y: string, rest: seq<string>)
    requires x != [] && y != []
    ensures AllLines(NonEmpty([x + "\n" + y, ""] + rest)) == AllLines(NonEmpty([x, y] + rest))
  {
    var p, r := x + "\n" + y, NonEmpty(rest);
    NonEmptyConcat([p, ""], rest);
    NonEmptyConcat([x, y], rest);
    NonEmptyPair(p, "");
    NonEmptyPair(x, y);
    MovedLines(x, y, r);
  }

  lemma NonEmptyPair(p: string, q: string)
    requires p != []
    ensures NonEmpty([p, q]) == if q == [] then [p] else [p] + [q]
  {
    assert [p, q][1..] == [q] && [q][1..] == [];
    assert NonEmpty([q]) == if q == [] then [] else [q];
  }

  lemma MovedLines(x: string, y: string, rest: seq<string>)
    ensures AllLines([x + "\n" + y] + rest) == AllLines([x] + [y] + rest)
  {
    SplitLfJoin(x, y);
    LinesFirst(x + "\n" + y, rest);
    LinesFirst(x, [y] + rest);
    LinesFirst(y, rest);
    Seqs.ConcatAssoc([x], [y], rest);
    Seqs.ConcatAssoc(SplitLf(x), SplitLf(y), AllLines(rest));
  }

  lemma LinesFirst(p: string, rest: seq<string>)
    ensures AllLines([p] + rest) == SplitLf(p) + AllLines(rest)
  {
    assert ([p] + rest)[1..] == rest;
  }

  // --- the hashes ---

  /** SHA-256 of a text and of a file's bytes, taken as injective where a property says so. */
  datatype Hasher = Hasher(text: string -> string, file: seq<char> -> string)

  ghost predicate Collisionless(h: Hasher) {
    && (forall x, y :: h.text(x) == h.text(y) ==> x == y)
    && (forall x, y :: h.file(x) == h.file(y) ==> x == y)
  }

  /** The assumption is not empty. */
  lemma CollisionlessExists()
    ensures Collisionless(Hasher(x => x, x => x))
  {
  }

  function BodySha(h: Hasher, d: Draft): string { h.text(BodyText(d)) }

  function TitleSha(h: Hasher, d: Draft): string { h.text(d.title) }
}
