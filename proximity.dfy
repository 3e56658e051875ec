/** The requester-profile-attribute-proximity scorer.

    It asks the language model which current members of the entitlement are
    close to the requester (once by title and department, once by
    organizational unit). Each member the model names earns the Jaccard ratio
    of shared words between their field and the requester's; the ratios add
    up per member. The score is the mean of the three largest tallies, scaled
    by the model's estimate of how well the requester's title fits the
    entitlement itself. */
module Proximity {
  import opened Wrappers
  import opened Text
  import opened Dicts
  import opened JsonValue
  import opened Models
  import opened Scores

  // ---------------------------------------------------------------------------
  // Shared-words ratio

  /** The lower-cased, whitespace-separated words of at least two characters. */
  function Words(s: string): set<string>
  {
    set w | w in Split(Lower(s)) && |w| >= 2
  }

  /** |A ∩ B| / |A ∪ B|, and 0 when both sets are empty. */
  function Jaccard(a: set<string>, b: set<string>): real
  {
    if |a + b| == 0 then 0.0 else (|a * b| as real) / (|a + b| as real)
  }

  lemma {:induction false} SubsetCard<T>(a: set<T>, b: set<T>)
    requires a <= b
    ensures |a| <= |b|
    ensures |a| == |b| ==> a == b
    decreases |b|
  {
    if a != b {
      var x :| x in b && x !in a;
      SubsetCard(a, b - {x});
    }
  }

  /** The ratio of shared words between two strings; 0 when either string is
      empty. */
  function SharedWordsPercentage(s1: string, s2: string): (r: real)
    ensures 0.0 <= r <= 1.0
    ensures s1 == [] || s2 == [] ==> r == 0.0
    ensures s1 != [] && s2 != [] ==> r == Jaccard(Words(s1), Words(s2))
  {
    if s1 == [] || s2 == [] then 0.0
    else
      var a, b := Words(s1), Words(s2);
      JaccardBounds(a, b);
      Jaccard(a, b)
  }

  lemma JaccardBounds(a: set<string>, b: set<string>)
    ensures 0.0 <= Jaccard(a, b) <= 1.0
  {
    if |a + b| != 0 {
      SubsetCard(a * b, a + b);
      RatioBounds(|a * b| as real, |a + b| as real);
    }
  }

  lemma RatioBounds(n: real, d: real)
    requires 0.0 <= n <= d && d > 0.0
    ensures 0.0 <= n / d <= 1.0
  {
  }

  lemma SharedWordsSymmetric(s1: string, s2: string)
    ensures SharedWordsPercentage(s1, s2) == SharedWordsPercentage(s2, s1)
  {
    if s1 != [] && s2 != [] {
      assert Words(s1) * Words(s2) == Words(s2) * Words(s1);
      assert Words(s1) + Words(s2) == Words(s2) + Words(s1);
    }
  }

  /** The ratio is 1 exactly when both strings have the same, non-empty set of
      words. */
  lemma SharedWordsOne(s1: string, s2: string)
    requires s1 != [] && s2 != []
    ensures SharedWordsPercentage(s1, s2) == 1.0 <==> Words(s1) == Words(s2) != {}
  {
    var a, b := Words(s1), Words(s2);
    if SharedWordsPercentage(s1, s2) == 1.0 {
      assert |a + b| != 0;
      assert |a * b| == |a + b|;
      SubsetCard(a * b, a + b);
      assert a * b == a + b;
      assert a <= a + b && b <= a + b;
      assert a == b by {
        forall x | x in a ensures x in b { assert x in a * b; }
        forall x | x in b ensures x in a { assert x in a * b; }
      }
    }
    if a == b != {} {
      assert a * b == a && a + b == a;
      assert |a| != 0;
    }
  }

  /** The ratio is 0 for two non-empty strings exactly when they share no
      word. */
  lemma SharedWordsZero(s1: string, s2: string)
    requires s1 != [] && s2 != []
    ensures SharedWordsPercentage(s1, s2) == 0.0 <==> Words(s1) * Words(s2) == {}
  {
    var a, b := Words(s1), Words(s2);
    if a * b != {} {
      var x :| x in a * b;
      assert x in a + b;
      assert |a * b| != 0 && |a + b| != 0;
    }
  }

  /** A member's field (a parsed value) against the requester's: a falsy
      value on either side gives 0; otherwise the member's value must be a
      string (`.lower()` raises AttributeError on anything else). */
  function ItemPercentage(theirs: Option<Json>, mine: Option<string>): (r: Result<real>)
    ensures r.Ok? ==> 0.0 <= r.value <= 1.0
    ensures r.Err? <==> theirs.Some? && Truthy(theirs.value) && !theirs.value.JStr?
                        && mine.Some? && mine.value != []
  {
    if theirs.None? || !Truthy(theirs.value) then Ok(0.0)
    else if mine.None? || mine.value == [] then Ok(0.0)
    else match theirs.value
      case JStr(s) => Ok(SharedWordsPercentage(s, mine.value))
      case _ => Err(AttributeError)
  }

  // ---------------------------------------------------------------------------
  // Markdown fence removal

  const JsonFence: string := "```json"
  const Fence: string := "```"

  /** The stripped text between the first "```json" and the next "```" after
      it, when there is one; otherwise the whole input, stripped. */
  function RemoveJsonMarkdown(s: string): (r: string)
  {
    Strip(FencedContent(s))
  }

  /** What `re.search` captures between the fences, or the whole input. */
  function FencedContent(s: string): (r: string)
  {
    match IndexOf(s, JsonFence)
    case Some(p) =>
      (match IndexFrom(s, Fence, p + |JsonFence|)
       case Some(c) => s[p + |JsonFence|..c]
       case None => s)
    case None => s
  }

  /** With no backtick before a position, no pattern starting with a backtick
      occurs before it. */
  lemma NoTickNoOccurrence(s: string, pat: string, lo: nat, hi: nat)
    requires pat != [] && pat[0] == '`'
    requires lo <= hi <= |s|
    requires forall j :: lo <= j < hi ==> s[j] != '`'
    ensures forall j :: lo <= j < hi ==> !OccursAt(s, pat, j)
  {
    forall j | lo <= j < hi ensures !OccursAt(s, pat, j) {
      if j + |pat| <= |s| {
        assert s[j..j + |pat|][0] == s[j] != pat[0];
      }
    }
  }

  /** A fenced block is unwrapped: the text before it (without backticks) and
      after it are dropped, and the block's content is stripped. The content
      may hold backticks, as JSON strings do, but no closing fence, and does
      not end in a backtick (which would start one). */
  lemma RemoveJsonMarkdownFenced(pre: string, body: string, post: string)
    requires '`' !in pre
    requires forall j :: !OccursAt(body, Fence, j)
    requires body == [] || body[|body| - 1] != '`'
    ensures RemoveJsonMarkdown(pre + JsonFence + body + Fence + post) == Strip(body)
  {
    var s := pre + JsonFence + body + Fence + post;
    var p := |pre|;
    var c := p + 7 + |body|;
    assert IndexOf(s, JsonFence) == Some(p) by {
      assert s[p..p + 7] == JsonFence;
      forall j | 0 <= j < p ensures s[j] != '`' { assert s[j] == pre[j]; }
      NoTickNoOccurrence(s, JsonFence, 0, p);
      FirstOccurrence(s, JsonFence, 0, p);
    }
    assert IndexFrom(s, Fence, p + 7) == Some(c) by {
      assert s[c..c + 3] == Fence;
      forall j | p + 7 <= j < c ensures !OccursAt(s, Fence, j) {
        if j + 3 <= c {
          assert s[j..j + 3] == body[j - p - 7..j - p - 4];
          assert !OccursAt(body, Fence, j - p - 7);
        } else {
          assert s[c - 1] == body[|body| - 1];
          assert s[j..j + 3][c - 1 - j] == s[c - 1] != Fence[c - 1 - j];
        }
      }
      FirstOccurrence(s, Fence, p + 7, c);
    }
    assert s[p + 7..c] == body;
    RemoveJsonMarkdownAt(s, p, c);
  }

  lemma RemoveJsonMarkdownAt(s: string, p: nat, c: nat)
    requires IndexOf(s, JsonFence) == Some(p) && IndexFrom(s, Fence, p + 7) == Some(c)
    ensures p + 7 <= c <= |s| && FencedContent(s) == s[p + 7..c]
  {
  }

  /** The search from `k` finds the first occurrence at or after it. */
  lemma FirstOccurrence(s: string, pat: string, k: nat, p: nat)
    requires k <= p && OccursAt(s, pat, p)
    requires forall j :: k <= j < p ==> !OccursAt(s, pat, j)
    ensures IndexFrom(s, pat, k) == Some(p)
  {
  }

  /** Text without a "```json" fence is only stripped, whatever other
      backticks it holds. */
  lemma RemoveJsonMarkdownPlain(s: string)
    requires forall j :: !OccursAt(s, JsonFence, j)
    ensures RemoveJsonMarkdown(s) == Strip(s)
  {
    assert IndexOf(s, JsonFence).None?;
  }

  /** A block fenced on lines of its own unwraps to its content. */
  lemma RemoveJsonMarkdownOwnLines(x: string)
    requires forall j :: !OccursAt(x, Fence, j)
    requires x == [] || (!IsSpace(x[0]) && !IsSpace(x[|x| - 1]))
    ensures RemoveJsonMarkdown(JsonFence + "\n" + x + "\n" + Fence) == x
  {
    var body := "\n" + x + "\n";
    assert JsonFence + "\n" + x + "\n" + Fence == "" + JsonFence + body + Fence + "";
    forall j ensures !OccursAt(body, Fence, j) {
      if j == 0 && 3 <= |body| {
        assert body[j..j + 3][0] == '\n' != Fence[0];
      } else if 0 < j && j + 3 == |body| {
        assert body[j..j + 3][2] == '\n' != Fence[2];
      } else if 0 < j && j + 3 < |body| {
        assert body[j..j + 3] == x[j - 1..j + 2];
        assert !OccursAt(x, Fence, j - 1);
      }
    }
    RemoveJsonMarkdownFenced("", body, "");
    StripWrapped('\n', x);
  }

  // ---------------------------------------------------------------------------
  // The member listing sent to the language model

  function ProfileField(p: MemberProfile, field: Field): string
  {
    match field
    case TitleAndDepartment => p.titleAndDepartment
    case OrganizationalUnit => Render(p.organizationalUnit)
  }

  /** `f"{profile['id']}: {profile[field_type]}"`: the member's id, never the
      e-mail address that keys the member. */
  function ListingLine(p: MemberProfile, field: Field): string
  {
    Render(p.id) + ": " + ProfileField(p, field)
  }

  /** One line per member, in the order of the member dictionary. */
  ghost predicate IsListing(members: Dict<string, MemberProfile>, field: Field, lines: seq<string>)
  {
    |lines| == |members| && forall i :: 0 <= i < |members| ==> lines[i] == ListingLine(members[i].value, field)
  }

  function ListingLines(members: Dict<string, MemberProfile>, field: Field): (lines: seq<string>)
    decreases |members|
  {
    if members == [] then []
    else ListingLines(members[..|members| - 1], field) + [ListingLine(members[|members| - 1].value, field)]
  }

  lemma {:induction false} ListingLinesSpec(members: Dict<string, MemberProfile>, field: Field)
    ensures IsListing(members, field, ListingLines(members, field))
    decreases |members|
  {
    if members != [] {
      ListingLinesSpec(members[..|members| - 1], field);
    }
  }

  /** The loop that flattens the members into lines, one per member. */
  method FlattenMembers(members: Dict<string, MemberProfile>, field: Field) returns (lines: seq<string>)
    ensures |lines| == |members|
    ensures forall i :: 0 <= i < |members| ==> lines[i] == ListingLine(members[i].value, field)
  {
    lines := [];
    var i := 0;
    while i < |members|
      invariant 0 <= i <= |members|
      invariant |lines| == i
      invariant forall k :: 0 <= k < i ==> lines[k] == ListingLine(members[k].value, field)
    {
      lines := lines + [ListingLine(members[i].value, field)];
      i := i + 1;
    }
  }

  function Reversed(xs: seq<string>): (r: seq<string>)
    ensures |r| == |xs|
    ensures forall k :: 0 <= k < |xs| ==> r[k] == xs[|xs| - 1 - k]
  {
    seq(|xs|, k requires 0 <= k < |xs| => xs[|xs| - 1 - k])
  }

  /** `"\n".join(reversed(lines))`. */
  function MemberListing(members: Dict<string, MemberProfile>, field: Field): string
  {
    Join(Reversed(ListingLines(members, field)), "\n")
  }

  /** Lines without line breaks, joined in reverse, split back into them. */
  lemma SplitReversedJoin(lines: seq<string>)
    requires lines != []
    requires forall i :: 0 <= i < |lines| ==> '\n' !in lines[i]
    ensures var back := SplitBy(Join(Reversed(lines), "\n"), "\n");
            |back| == |lines| && forall k :: 0 <= k < |lines| ==> back[k] == lines[|lines| - 1 - k]
  {
    var rev := Reversed(lines);
    forall k | 0 <= k < |rev| ensures '\n' !in rev[k] {
      assert rev[k] == lines[|lines| - 1 - k];
    }
    SplitByJoin(rev, '\n');
  }

  lemma ListingLinesNoBreak(members: Dict<string, MemberProfile>, field: Field)
    requires forall i :: 0 <= i < |members| ==> '\n' !in ListingLine(members[i].value, field)
    ensures IsListing(members, field, ListingLines(members, field))
    ensures forall i :: 0 <= i < |members| ==> '\n' !in ListingLines(members, field)[i]
  {
    var lines := ListingLines(members, field);
    ListingLinesSpec(members, field);
    forall i | 0 <= i < |lines| ensures '\n' !in lines[i] {
      assert lines[i] == ListingLine(members[i].value, field);
    }
  }

  /** The listing reads back, line by line, as the members in reverse order,
      provided no id or field contains a line break. */
  lemma MemberListingLines(members: Dict<string, MemberProfile>, field: Field)
    requires members != []
    requires forall i :: 0 <= i < |members| ==> '\n' !in ListingLine(members[i].value, field)
    ensures var back := SplitBy(MemberListing(members, field), "\n");
            |back| == |members|
            && forall k :: 0 <= k < |members| ==> back[k] == ListingLine(members[|members| - 1 - k].value, field)
  {
    var lines := ListingLines(members, field);
    assert IsListing(members, field, lines) && forall i :: 0 <= i < |lines| ==> '\n' !in lines[i] by {
      ListingLinesNoBreak(members, field);
    }
    var back := SplitBy(Join(Reversed(lines), "\n"), "\n");
    assert |back| == |lines| && forall k :: 0 <= k < |lines| ==> back[k] == lines[|lines| - 1 - k] by {
      SplitReversedJoin(lines);
    }
    forall k | 0 <= k < |members| ensures back[k] == ListingLine(members[|members| - 1 - k].value, field) {
      assert back[k] == lines[|lines| - 1 - k];
    }
  }

  /** The listing depends only on the member profiles, not on the e-mail
      addresses that key them. */
  lemma MemberListingIgnoresEmails(m1: Dict<string, MemberProfile>, m2: Dict<string, MemberProfile>, field: Field)
    requires Values(m1) == Values(m2)
    ensures MemberListing(m1, field) == MemberListing(m2, field)
  {
    ListingLinesSpec(m1, field);
    ListingLinesSpec(m2, field);
    var l1, l2 := ListingLines(m1, field), ListingLines(m2, field);
    assert |m1| == |Values(m1)| == |Values(m2)| == |m2|;
    forall i | 0 <= i < |l1| ensures l1[i] == l2[i] {
      assert m1[i].value == Values(m1)[i] == Values(m2)[i] == m2[i].value;
    }
    assert l1 == l2;
  }

  // ---------------------------------------------------------------------------
  // The two model queries

  /** The supported field types; any other raises ValueError. */
  function FieldOf(fieldType: string): (r: Result<Field>)
    ensures r.Ok? <==> fieldType in {"title_and_department", "organizational_unit"}
    ensures r.Err? ==> r.error == ValueError("Unsupported type '" + fieldType + "'.")
  {
    if fieldType == "title_and_department" then Ok(TitleAndDepartment)
    else if fieldType == "organizational_unit" then Ok(OrganizationalUnit)
    else Err(ValueError("Unsupported type '" + fieldType + "'."))
  }

  /** `json.loads(remove_json_markdown(answer)).get(key)`. */
  function ParseAnswer(loads: Loads, answer: string, key: string): (r: Result<Option<Json>>)
    ensures loads(RemoveJsonMarkdown(answer)).None? ==> r == Err(JsonDecodeError)
  {
    var parsed :- Decode(loads, RemoveJsonMarkdown(answer));
    GetAttr(parsed, key)
  }

  /** The members the model reports as close to the requester on one field.
      `Some(list)` on success, `None` when the model gave no answer. */
  function MatchMembers(llm: LlmPlugin, loads: Loads, fieldType: string, fieldValue: Option<string>,
                        members: Dict<string, MemberProfile>): (r: Result<Option<Json>>)
    // no members: an empty list, before the field type is checked or the model asked
    ensures members == [] ==> r == Ok(Some(JArr([])))
    ensures members != [] && FieldOf(fieldType).Err? ==> r == Err(FieldOf(fieldType).error)
    ensures members != [] && FieldOf(fieldType).Ok? ==>
              var answer := llm.Query(OverlapPrompt(FieldOf(fieldType).value, fieldValue,
                                                    MemberListing(members, FieldOf(fieldType).value)));
              (answer.Err? ==> r == Err(answer.error))
              && (answer.Ok? && (answer.value.None? || answer.value.value == []) ==> r == Ok(None))
              && (answer.Ok? && answer.value.Some? && answer.value.value != [] ==>
                    var parsed := ParseAnswer(loads, answer.value.value, "overlap_users");
                    (parsed.Err? ==> r == Err(parsed.error))
                    && (parsed.Ok? && (parsed.value.None? || !Truthy(parsed.value.value)) ==> r == Ok(Some(JArr([]))))
                    && (parsed.Ok? && parsed.value.Some? && Truthy(parsed.value.value) ==> r == Ok(parsed.value)))
  {
    if members == [] then Ok(Some(JArr([])))
    else
      var field :- FieldOf(fieldType);
      var answer :- llm.Query(OverlapPrompt(field, fieldValue, MemberListing(members, field)));
      if answer.None? || answer.value == [] then Ok(None)
      else
        var results :- ParseAnswer(loads, answer.value, "overlap_users");
        if results.None? || !Truthy(results.value) then Ok(Some(JArr([])))
        else Ok(results)
  }

  /** The model's estimate of how well the requester fits the entitlement:
      `None` when there is no answer or the score is missing or falsy. */
  function MatchEntitlement(llm: LlmPlugin, loads: Loads, titleAndDepartment: string,
                            name: Option<string>, description: Option<string>): (r: Result<Option<Json>>)
    ensures r.Ok? && r.value.Some? ==> Truthy(r.value.value)
    ensures var answer := llm.Query(RelationshipPrompt(titleAndDepartment, name, description));
            (answer.Err? ==> r == Err(answer.error))
            && (answer.Ok? && (answer.value.None? || answer.value.value == []) ==> r == Ok(None))
            && (answer.Ok? && answer.value.Some? && answer.value.value != [] ==>
                  var parsed := ParseAnswer(loads, answer.value.value, "relationship_score");
                  (parsed.Err? ==> r == Err(parsed.error))
                  && (parsed.Ok? && (parsed.value.None? || !Truthy(parsed.value.value)) ==> r == Ok(None))
                  && (parsed.Ok? && parsed.value.Some? && Truthy(parsed.value.value) ==> r == Ok(parsed.value)))
  {
    var answer :- llm.Query(RelationshipPrompt(titleAndDepartment, name, description));
    if answer.None? || answer.value == [] then Ok(None)
    else
      var score :- ParseAnswer(loads, answer.value, "relationship_score");
      if score.None? || !Truthy(score.value) then Ok(None) else Ok(score)
  }

  // ---------------------------------------------------------------------------
  // Tallying the matches

  /** `for x in results`: a list gives its items, a dictionary its keys and a
      string its characters; `None`, numbers and booleans are not iterable. */
  function Iterate(results: Option<Json>): (r: Result<seq<Json>>)
    ensures r.Err? ==> r.error == TypeError
    ensures r.Ok? <==> results.Some? && (results.value.JArr? || results.value.JObj? || results.value.JStr?)
    ensures results.Some? && results.value.JArr? ==> r == Ok(results.value.items)
  {
    match results
    case None => Err(TypeError)
    case Some(JArr(xs)) => Ok(xs)
    case Some(JObj(fs)) => Ok(seq(|fs|, i requires 0 <= i < |fs| => JStr(fs[i].key)))
    case Some(JStr(s)) => Ok(seq(|s|, i requires 0 <= i < |s| => JStr([s[i]])))
    case Some(_) => Err(TypeError)
  }

  /** What one reported match adds to the tally: the member's key and the
      shared-words ratio of its field against the requester's. */
  function Contribution(item: Json, key: string, mine: Option<string>): (r: Result<(Json, real)>)
    ensures r.Ok? ==> item.JObj? && 0.0 <= r.value.1 <= 1.0 && !r.value.0.JBool?
  {
    match item
    case JObj(fs) =>
      var pct :- ItemPercentage(Get(fs, key), mine);
      var k :- HashKey(Get(fs, "user").GetOr(JNull));
      Ok((k, pct))
    case _ => Err(AttributeError)
  }

  /** The contributions of the reported matches, in order; the first failing
      item's error otherwise. */
  function Contributions(items: seq<Json>, key: string, mine: Option<string>): (r: Result<seq<(Json, real)>>)
    ensures r.Ok? ==> |r.value| == |items|
    ensures r.Ok? ==> forall i :: 0 <= i < |r.value| ==> 0.0 <= r.value[i].1 <= 1.0
    decreases |items|
  {
    if items == [] then Ok([])
    else
      var cs :- Contributions(items[..|items| - 1], key, mine);
      var c :- Contribution(items[|items| - 1], key, mine);
      Ok(cs + [c])
  }

  lemma {:induction false} ContributionsPrefixErr(items: seq<Json>, i: nat, key: string, mine: Option<string>)
    requires i <= |items|
    requires Contributions(items[..i], key, mine).Err?
    ensures Contributions(items, key, mine) == Contributions(items[..i], key, mine)
    decreases |items| - i
  {
    if i < |items| {
      var n := |items|;
      assert Contributions(items[..n - 1], key, mine) == Contributions(items[..i], key, mine) by {
        assert items[..n - 1][..i] == items[..i];
        ContributionsPrefixErr(items[..n - 1], i, key, mine);
      }
    } else {
      assert items[..i] == items;
    }
  }

  /** One more item extends the contributions, or fails with its error. */
  lemma ContributionsNext(items: seq<Json>, i: nat, key: string, mine: Option<string>, cs: seq<(Json, real)>)
    requires i < |items| && Contributions(items[..i], key, mine) == Ok(cs)
    ensures var c := Contribution(items[i], key, mine);
            Contributions(items[..i + 1], key, mine) == if c.Err? then Err(c.error) else Ok(cs + [c.value])
  {
    assert items[..i + 1][..i] == items[..i];
  }

  type Tally = Dict<Json, real>

  /** `tally[k] = tally.setdefault(k, 0) + x`. */
  function AddTo(t: Tally, k: Json, x: real): Tally
  {
    Put(t, k, GetOr(t, k, 0.0) + x)
  }

  function TallyOf(t: Tally, cs: seq<(Json, real)>): Tally
    decreases |cs|
  {
    if cs == [] then t
    else AddTo(TallyOf(t, cs[..|cs| - 1]), cs[|cs| - 1].0, cs[|cs| - 1].1)
  }

  lemma TallyOfNext(t: Tally, cs: seq<(Json, real)>, c: (Json, real))
    ensures TallyOf(t, cs + [c]) == AddTo(TallyOf(t, cs), c.0, c.1)
  {
    assert (cs + [c])[..|cs|] == cs;
  }

  /** The keys contributed to, in a set. */
  function ContributedKeys(cs: seq<(Json, real)>): (ks: set<Json>)
    decreases |cs|
  {
    if cs == [] then {} else ContributedKeys(cs[..|cs| - 1]) + {cs[|cs| - 1].0}
  }

  lemma {:induction false} ContributedKeysSpec(cs: seq<(Json, real)>, k: Json)
    ensures k in ContributedKeys(cs) <==> exists i :: 0 <= i < |cs| && cs[i].0 == k
    decreases |cs|
  {
    if cs != [] {
      var n := |cs| - 1;
      assert k in ContributedKeys(cs[..n]) <==> exists i :: 0 <= i < n && cs[..n][i].0 == k by {
        ContributedKeysSpec(cs[..n], k);
      }
      if exists i :: 0 <= i < n && cs[..n][i].0 == k {
        var i :| 0 <= i < n && cs[..n][i].0 == k;
        assert cs[i].0 == k;
      }
      if exists i :: 0 <= i < |cs| && cs[i].0 == k {
        var i :| 0 <= i < |cs| && cs[i].0 == k;
        if i < n {
          assert cs[..n][i].0 == k;
        }
      }
    }
  }

  /** The total of the contributions made to one key. */
  function SumFor(cs: seq<(Json, real)>, k: Json): real
    decreases |cs|
  {
    if cs == [] then 0.0
    else SumFor(cs[..|cs| - 1], k) + (if cs[|cs| - 1].0 == k then cs[|cs| - 1].1 else 0.0)
  }

  /** Every occurrence adds: a key's tally is what it had plus the sum of all
      contributions made to it, and the tally has exactly the keys it had and
      the keys contributed to. */
  lemma TallyOfSums(t: Tally, cs: seq<(Json, real)>, k: Json)
    ensures GetOr(TallyOf(t, cs), k, 0.0) == GetOr(t, k, 0.0) + SumFor(cs, k)
    ensures k in Keys(TallyOf(t, cs)) <==> k in Keys(t) || exists i :: 0 <= i < |cs| && cs[i].0 == k
  {
    TallyOfSum(t, cs, k);
    TallyOfKeys(t, cs);
    ContributedKeysSpec(cs, k);
  }

  /** One contribution adds to its own key only, and adds that key. */
  lemma AddToSpec(t: Tally, c: Json, x: real, k: Json)
    ensures GetOr(AddTo(t, c, x), k, 0.0) == GetOr(t, k, 0.0) + (if c == k then x else 0.0)
    ensures Keys(AddTo(t, c, x)) == Keys(t) + {c}
  {
  }

  lemma {:induction false} TallyOfSum(t: Tally, cs: seq<(Json, real)>, k: Json)
    ensures GetOr(TallyOf(t, cs), k, 0.0) == GetOr(t, k, 0.0) + SumFor(cs, k)
    decreases |cs|
  {
    if cs != [] {
      var n := |cs| - 1;
      assert GetOr(TallyOf(t, cs[..n]), k, 0.0) == GetOr(t, k, 0.0) + SumFor(cs[..n], k) by {
        TallyOfSum(t, cs[..n], k);
      }
      AddToSpec(TallyOf(t, cs[..n]), cs[n].0, cs[n].1, k);
    }
  }

  lemma {:induction false} TallyOfKeys(t: Tally, cs: seq<(Json, real)>)
    ensures Keys(TallyOf(t, cs)) == Keys(t) + ContributedKeys(cs)
    decreases |cs|
  {
    if cs != [] {
      var n := |cs| - 1;
      assert Keys(TallyOf(t, cs[..n])) == Keys(t) + ContributedKeys(cs[..n]) by {
        TallyOfKeys(t, cs[..n]);
      }
      AddToSpec(TallyOf(t, cs[..n]), cs[n].0, cs[n].1, cs[n].0);
    }
  }

  /** Contributions that are never negative keep every tally non-negative. */
  lemma {:induction false} TallyOfNonNegative(t: Tally, cs: seq<(Json, real)>)
    requires forall i :: 0 <= i < |t| ==> t[i].value >= 0.0
    requires forall i :: 0 <= i < |cs| ==> cs[i].1 >= 0.0
    ensures forall i :: 0 <= i < |TallyOf(t, cs)| ==> TallyOf(t, cs)[i].value >= 0.0
    decreases |cs|
  {
    if cs != [] {
      var n := |cs| - 1;
      TallyOfNonNegative(t, cs[..n]);
      var prev := TallyOf(t, cs[..n]);
      var (k, x) := cs[n];
      PutValues(prev, k, GetOr(prev, k, 0.0) + x);
      GetValue(prev, k);
    }
  }

  /** A value read from a dictionary is one of its values. */
  lemma {:induction false} GetValue(d: Tally, k: Json)
    ensures Get(d, k).Some? ==> exists i :: 0 <= i < |d| && d[i].value == Get(d, k).value
    decreases |d|
  {
    if d != [] && d[0].key != k {
      GetValue(d[1..], k);
      if Get(d, k).Some? {
        var i :| 0 <= i < |d[1..]| && d[1..][i].value == Get(d, k).value;
        assert d[i + 1].value == Get(d, k).value;
      }
    }
  }

  /** Every value after `Put` is either the new one or an old one. */
  lemma {:induction false} PutValues(d: Tally, k: Json, v: real)
    ensures forall i :: 0 <= i < |Put(d, k, v)| ==>
              Put(d, k, v)[i].value == v || exists j :: 0 <= j < |d| && d[j].value == Put(d, k, v)[i].value
    decreases |d|
  {
    if d != [] && d[0].key != k {
      PutValues(d[1..], k, v);
      var r := Put(d, k, v);
      assert r == [d[0]] + Put(d[1..], k, v);
      forall i | 0 <= i < |r|
        ensures r[i].value == v || exists j :: 0 <= j < |d| && d[j].value == r[i].value
      {
        if i == 0 {
          assert d[0].value == r[0].value;
        } else if r[i].value != v {
          var j :| 0 <= j < |d[1..]| && d[1..][j].value == Put(d[1..], k, v)[i - 1].value;
          assert d[j + 1].value == r[i].value;
        }
      }
    } else if d != [] {
      var r := Put(d, k, v);
      forall i | 0 <= i < |r|
        ensures r[i].value == v || exists j :: 0 <= j < |d| && d[j].value == r[i].value
      {
        if i > 0 {
          assert r[i] == d[i];
        }
      }
    }
  }

  /** `final_score = 0`, then the mean of the top three when there are any,
      then `if relationship: final_score = final_score * relationship`. A
      number scales the score and `True` multiplies it by one. While no
      member was tallied the score is still the integer 0, and Python's `0 *
      s` repeats a string or a list zero times, giving `""` or `[]`; the mean
      is a float, and a float cannot multiply a string or a list. Nothing can
      multiply a dictionary. Any of these failures is a TypeError. */
  function Scale(topThree: seq<real>, relationship: Option<Json>): (r: Result<Json>)
    ensures relationship.None? || !Truthy(relationship.value) ==> r == Ok(JNum(Mean(topThree)))
    ensures (relationship.Some? && Truthy(relationship.value) && relationship.value.JNum?) ==>
              r == Ok(JNum(Mean(topThree) * relationship.value.n))
    ensures relationship.Some? && relationship.value.JBool? ==> r == Ok(JNum(Mean(topThree)))
    ensures r.Ok? && !r.value.JNum? <==>
              topThree == [] && relationship.Some? && Truthy(relationship.value)
              && (relationship.value.JStr? || relationship.value.JArr?)
    ensures r.Ok? && !r.value.JNum? ==> r.value == JStr("") || r.value == JArr([])
    ensures r.Err? <==> relationship.Some? && Truthy(relationship.value)
                        && (relationship.value.JObj?
                            || (topThree != [] && (relationship.value.JStr? || relationship.value.JArr?)))
    ensures r.Err? ==> r.error == TypeError
  {
    if relationship.None? || !Truthy(relationship.value) then Ok(JNum(Mean(topThree)))
    else if relationship.value.JNum? then Ok(JNum(Mean(topThree) * relationship.value.n))
    else if relationship.value.JBool? then Ok(JNum(Mean(topThree)))
    else if relationship.value.JStr? && topThree == [] then Ok(JStr(""))
    else if relationship.value.JArr? && topThree == [] then Ok(JArr([]))
    else Err(TypeError)
  }

  // ---------------------------------------------------------------------------
  // The score

  /** The score of an access request, as `compute_scores` computes it: both
      overlap queries and the relationship query are made first, then the
      matches are tallied, the three highest tallies averaged and the result
      scaled. */
  function ProximityScore(request: AccessRequest, llm: LlmPlugin, loads: Loads): Result<Json>
  {
    var requester := request.requester;
    var members := request.entitlement.members;
    var titles :- MatchMembers(llm, loads, "title_and_department", Some(requester.titleAndDepartment), members);
    var units :- MatchMembers(llm, loads, "organizational_unit", requester.organizationalUnit, members);
    var relationship :- MatchEntitlement(llm, loads, requester.titleAndDepartment,
                                         request.entitlement.name, request.entitlement.description);
    var tally :- Tallied(titles, units, requester.titleAndDepartment, requester.organizationalUnit);
    Scale(TopThree(Values(tally)), relationship)
  }

  /** The title matches and then the organizational-unit matches, tallied per
      member. */
  function Tallied(titles: Option<Json>, units: Option<Json>, titleAndDepartment: string,
                   organizationalUnit: Option<string>): Result<Tally>
  {
    var titleItems :- Iterate(titles);
    var titleMatches :- Contributions(titleItems, "title_and_department", Some(titleAndDepartment));
    var unitItems :- Iterate(units);
    var unitMatches :- Contributions(unitItems, "organizational_unit", organizationalUnit);
    Ok(TallyOf(TallyOf([], titleMatches), unitMatches))
  }

  /** Ratios are never negative, so neither is any tally; with no reported
      matches nothing is tallied. */
  lemma TalliedNonNegative(titles: Option<Json>, units: Option<Json>, titleAndDepartment: string,
                           organizationalUnit: Option<string>)
    ensures var r := Tallied(titles, units, titleAndDepartment, organizationalUnit);
            (r.Ok? ==> forall i :: 0 <= i < |r.value| ==> r.value[i].value >= 0.0)
            && (titles == Some(JArr([])) && units == Some(JArr([])) ==> r == Ok([]))
  {
    var r := Tallied(titles, units, titleAndDepartment, organizationalUnit);
    if r.Ok? {
      var t := Contributions(Iterate(titles).value, "title_and_department", Some(titleAndDepartment)).value;
      var u := Contributions(Iterate(units).value, "organizational_unit", organizationalUnit).value;
      TallyOfNonNegative([], t);
      TallyOfNonNegative(TallyOf([], t), u);
    }
  }

  /** A numeric score is never negative unless the model rates the
      relationship with a negative number; a score that is not a number is
      the empty string or the empty list, and only when nothing was tallied. */
  lemma ProximityScoreNonNegative(request: AccessRequest, llm: LlmPlugin, loads: Loads)
    requires var rel := MatchEntitlement(llm, loads, request.requester.titleAndDepartment,
                                         request.entitlement.name, request.entitlement.description);
             !(rel.Ok? && rel.value.Some? && rel.value.value.JNum? && rel.value.value.n < 0.0)
    ensures var r := ProximityScore(request, llm, loads);
            r.Ok? && r.value.JNum? ==> r.value.n >= 0.0
    ensures var r := ProximityScore(request, llm, loads);
            r.Ok? && !r.value.JNum? ==> r.value == JStr("") || r.value == JArr([])
  {
    var requester := request.requester;
    var members := request.entitlement.members;
    var titles := MatchMembers(llm, loads, "title_and_department", Some(requester.titleAndDepartment), members);
    var units := MatchMembers(llm, loads, "organizational_unit", requester.organizationalUnit, members);
    var rel := MatchEntitlement(llm, loads, requester.titleAndDepartment,
                                request.entitlement.name, request.entitlement.description);
    if titles.Ok? && units.Ok? && rel.Ok? {
      var tally := Tallied(titles.value, units.value, requester.titleAndDepartment, requester.organizationalUnit);
      TalliedNonNegative(titles.value, units.value, requester.titleAndDepartment, requester.organizationalUnit);
      if tally.Ok? {
        assert ProximityScore(request, llm, loads) == Scale(TopThree(Values(tally.value)), rel.value);
        TopThreeMeanLower(Values(tally.value), 0.0);
        ScaleNonNegative(TopThree(Values(tally.value)), rel.value);
      }
    }
  }

  lemma ScaleNonNegative(topThree: seq<real>, relationship: Option<Json>)
    requires Mean(topThree) >= 0.0
    requires !(relationship.Some? && relationship.value.JNum? && relationship.value.n < 0.0)
    ensures var r := Scale(topThree, relationship);
            r.Ok? && r.value.JNum? ==> r.value.n >= 0.0
  {
    if relationship.Some? && relationship.value.JNum? {
      var n := relationship.value.n;
      assert Mean(topThree) * n >= 0.0 * n;
    }
  }

  /** The relationship judgement asked for an entitlement. */
  function Relationship(request: AccessRequest, llm: LlmPlugin, loads: Loads): Result<Option<Json>>
  {
    MatchEntitlement(llm, loads, request.requester.titleAndDepartment,
                     request.entitlement.name, request.entitlement.description)
  }

  /** An entitlement without members tallies nothing, so its score is the
      relationship score applied to the integer 0. */
  lemma NoMembersScale(request: AccessRequest, llm: LlmPlugin, loads: Loads)
    requires request.entitlement.members == []
    ensures var rel := Relationship(request, llm, loads);
            rel.Ok? ==> ProximityScore(request, llm, loads) == Scale([], rel.value)
  {
    var requester := request.requester;
    TalliedNonNegative(Some(JArr([])), Some(JArr([])), requester.titleAndDepartment, requester.organizationalUnit);
    var empty: Tally := [];
    assert TopThree(Values(empty)) == [] by {
      TopThreeSpec(Values(empty));
    }
  }

  /** An entitlement without members scores 0 when the model's relationship
      score is absent, falsy, a number or `True`. */
  lemma NoMembersScoreZero(request: AccessRequest, llm: LlmPlugin, loads: Loads)
    requires request.entitlement.members == []
    ensures var rel := Relationship(request, llm, loads);
            (rel.Ok? && (rel.value.None? || !Truthy(rel.value.value) || rel.value.value.JNum? || rel.value.value.JBool?))
              ==> ProximityScore(request, llm, loads) == Ok(JNum(0.0))
  {
    var rel := Relationship(request, llm, loads);
    if rel.Ok? {
      NoMembersScale(request, llm, loads);
      ScaleOfNothing(rel.value);
    }
  }

  /** Nothing tallied: the integer 0 times a number or a boolean, or left
      unscaled, is 0. */
  lemma ScaleOfNothing(relationship: Option<Json>)
    ensures (relationship.None? || !Truthy(relationship.value) || relationship.value.JNum? || relationship.value.JBool?)
              ==> Scale([], relationship) == Ok(JNum(0.0))
  {
    assert Mean([]) == 0.0;
  }

  /** Without members, a truthy string as the relationship score is repeated
      zero times: the score is `""`. */
  lemma NoMembersScoreString(request: AccessRequest, llm: LlmPlugin, loads: Loads)
    requires request.entitlement.members == []
    ensures var rel := Relationship(request, llm, loads);
            (rel.Ok? && rel.value.Some? && Truthy(rel.value.value) && rel.value.value.JStr?)
              ==> ProximityScore(request, llm, loads) == Ok(JStr(""))
  {
    NoMembersScale(request, llm, loads);
  }

  /** Without members, a non-empty list as the relationship score is repeated
      zero times: the score is `[]`. */
  lemma NoMembersScoreList(request: AccessRequest, llm: LlmPlugin, loads: Loads)
    requires request.entitlement.members == []
    ensures var rel := Relationship(request, llm, loads);
            (rel.Ok? && rel.value.Some? && Truthy(rel.value.value) && rel.value.value.JArr?)
              ==> ProximityScore(request, llm, loads) == Ok(JArr([]))
  {
    NoMembersScale(request, llm, loads);
  }

  /** Without members, a non-empty dictionary as the relationship score cannot
      multiply the integer 0 (TypeError). */
  lemma NoMembersScoreDict(request: AccessRequest, llm: LlmPlugin, loads: Loads)
    requires request.entitlement.members == []
    ensures var rel := Relationship(request, llm, loads);
            (rel.Ok? && rel.value.Some? && Truthy(rel.value.value) && rel.value.value.JObj?)
              ==> ProximityScore(request, llm, loads) == Err(TypeError)
  {
    NoMembersScale(request, llm, loads);
  }

  /** A model that never completes its answer makes the scorer fail with
      TypeError: the missing member list cannot be iterated. */
  lemma IncompleteAnswerTypeError(request: AccessRequest, config: Json, loads: Loads)
    requires request.entitlement.members != []
    ensures ProximityScore(request, AnsweringLlmPlugin(config, (p: Prompt) => Ok(None)), loads) == Err(TypeError)
  {
  }

  /** The score depends on the members' profiles, never on the e-mail
      addresses that key them. */
  lemma ProximityScoreIgnoresEmails(request: AccessRequest, members: Dict<string, MemberProfile>,
                                    llm: LlmPlugin, loads: Loads)
    requires Values(request.entitlement.members) == Values(members)
    ensures ProximityScore(request, llm, loads)
         == ProximityScore(request.(entitlement := request.entitlement.(members := members)), llm, loads)
  {
    var requester := request.requester;
    var m1 := request.entitlement.members;
    MatchMembersIgnoresEmails(llm, loads, "title_and_department", Some(requester.titleAndDepartment), m1, members);
    MatchMembersIgnoresEmails(llm, loads, "organizational_unit", requester.organizationalUnit, m1, members);
  }

  lemma MatchMembersIgnoresEmails(llm: LlmPlugin, loads: Loads, fieldType: string, fieldValue: Option<string>,
                                  m1: Dict<string, MemberProfile>, m2: Dict<string, MemberProfile>)
    requires Values(m1) == Values(m2)
    ensures MatchMembers(llm, loads, fieldType, fieldValue, m1) == MatchMembers(llm, loads, fieldType, fieldValue, m2)
  {
    assert |m1| == |Values(m1)| == |m2|;
    if m1 != [] && FieldOf(fieldType).Ok? {
      MemberListingIgnoresEmails(m1, m2, FieldOf(fieldType).value);
    }
  }

  /** Adds each item's contribution to the tally, as the two loops of
      `compute_scores` do. */
  method TallyLoop(tally: Tally, items: seq<Json>, key: string, mine: Option<string>) returns (r: Result<Tally>)
    ensures Contributions(items, key, mine).Err? ==> r == Err(Contributions(items, key, mine).error)
    ensures Contributions(items, key, mine).Ok? ==> r == Ok(TallyOf(tally, Contributions(items, key, mine).value))
  {
    var t := tally;
    ghost var cs: seq<(Json, real)> := [];
    var i := 0;
    while i < |items|
      invariant 0 <= i <= |items|
      invariant Contributions(items[..i], key, mine) == Ok(cs)
      invariant t == TallyOf(tally, cs)
    {
      var c := Contribution(items[i], key, mine);
      ContributionsNext(items, i, key, mine, cs);
      if c.Err? {
        ContributionsPrefixErr(items, i + 1, key, mine);
        return Err(c.error);
      }
      TallyOfNext(tally, cs, c.value);
      t := AddTo(t, c.value.0, c.value.1);
      cs := cs + [c.value];
      i := i + 1;
    }
    assert items[..i] == items;
    r := Ok(t);
  }

  /** `compute_scores`. */
  method ComputeScores(request: AccessRequest, llm: LlmPlugin, loads: Loads) returns (r: Result<Json>)
    ensures r == ProximityScore(request, llm, loads)
  {
    var requester := request.requester;
    var members := request.entitlement.members;
    var titles := MatchMembers(llm, loads, "title_and_department", Some(requester.titleAndDepartment), members);
    if titles.Err? { return Err(titles.error); }
    var units := MatchMembers(llm, loads, "organizational_unit", requester.organizationalUnit, members);
    if units.Err? { return Err(units.error); }
    var relationship := MatchEntitlement(llm, loads, requester.titleAndDepartment,
                                         request.entitlement.name, request.entitlement.description);
    if relationship.Err? { return Err(relationship.error); }

    var titleItems := Iterate(titles.value);
    if titleItems.Err? { return Err(titleItems.error); }
    var tally := TallyLoop([], titleItems.value, "title_and_department", Some(requester.titleAndDepartment));
    if tally.Err? { return Err(tally.error); }
    var unitItems := Iterate(units.value);
    if unitItems.Err? { return Err(unitItems.error); }
    tally := TallyLoop(tally.value, unitItems.value, "organizational_unit", requester.organizationalUnit);
    if tally.Err? { return Err(tally.error); }

    var topThree := TopThree(Values(tally.value));
    r := Scale(topThree, relationship.value);
  }
}
