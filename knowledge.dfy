module Wrappers {
  datatype Option<T> = None | Some(value: T)
}

/** The read-only knowledge base (the `skills` and `categories` mappings of
    `data.json`) and the text the router renders from it. */
module Knowledge {
  import opened Wrappers
  import opened Text

  /** A JSON value where a list of strings is expected. `Null` is JSON `null`
      or an absent key (`dict.get` gives `None` for both); `Scalar(text)` is any
      other non-list value, `text` being what Python's `str()` prints for it. */
  datatype Value = Null | List(items: seq<string>) | Scalar(text: string)

  /** One entry of `skills`. A field that is `None` is a key missing from the
      record; a present field may hold the empty string. */
  datatype SkillRecord = SkillRecord(
    description: Option<string>,
    keySkills: Value,
    tools: Value,
    salaryRangeInr: Option<string>,
    careerPath: Option<string>)

  /** The two mappings, as insertion-ordered association lists (Python dicts
      keep insertion order). */
  datatype KnowledgeBase = KnowledgeBase(
    skills: seq<(string, SkillRecord)>,
    categories: seq<(string, seq<string>)>)
  {
    /** Keys are distinct, as in a dict. */
    ghost predicate Valid() {
      (forall i, j :: 0 <= i < j < |skills| ==> skills[i].0 != skills[j].0) &&
      (forall i, j :: 0 <= i < j < |categories| ==> categories[i].0 != categories[j].0)
    }
  }

  const NotAvailable := "N/A"

  /** `safe_join`: a non-empty list is joined with ", ", an empty list and
      `None` become "N/A", and any other value is printed with `str()`. */
  function SafeJoin(v: Value): (r: string)
    ensures v.List? && v.items != [] ==> r == Join(", ", v.items)
    ensures v.Null? || v == List([]) ==> r == NotAvailable
    ensures v.Scalar? ==> r == v.text
  {
    match v
    case List(items) => if items != [] then Join(", ", items) else NotAvailable
    case Null => NotAvailable
    case Scalar(text) => text
  }

  /** `record.get(key, 'N/A')` for a text field: "N/A" only when the key is absent. */
  function FieldOr(field: Option<string>): (r: string)
    ensures field.None? ==> r == NotAvailable
    ensures field.Some? ==> r == field.value
  {
    if field.Some? then field.value else NotAvailable
  }

  // ---------------------------------------------------------------- skill lookup

  /** The `skills` entries whose key occurs in the normalised input, in order
      (the list comprehension of the skill-lookup intent). */
  function Mentioned(skills: seq<(string, SkillRecord)>, n: string): (m: seq<(string, SkillRecord)>)
    ensures |m| <= |skills|
    ensures forall p :: p in m ==> p in skills && Contains(n, p.0)
  {
    if skills == [] then []
    else (if Contains(n, skills[0].0) then [skills[0]] else []) + Mentioned(skills[1..], n)
  }

  /** Exactly the entry at index `i` is mentioned iff its key occurs in the
      input and no other entry's key does. */
  lemma SoleMention(skills: seq<(string, SkillRecord)>, n: string, i: nat)
    requires i < |skills|
    ensures Mentioned(skills, n) == [skills[i]] <==>
      Contains(n, skills[i].0) &&
      forall j :: 0 <= j < |skills| && j != i ==> !Contains(n, skills[j].0)
  {
    if Mentioned(skills, n) == [skills[i]] {
      assert skills[i] in Mentioned(skills, n);
      forall j | 0 <= j < |skills| && j != i
        ensures !Contains(n, skills[j].0)
      {
        if Contains(n, skills[j].0) {
          if i < j { TwoMentioned(skills, n, i, j); } else { TwoMentioned(skills, n, j, i); }
        }
      }
    }
    if Contains(n, skills[i].0) && forall j :: 0 <= j < |skills| && j != i ==> !Contains(n, skills[j].0) {
      OnlyMentioned(skills, n, i);
    }
  }

  /** Two entries whose keys both occur are both mentioned. */
  lemma {:induction false} TwoMentioned(skills: seq<(string, SkillRecord)>, n: string, i: nat, j: nat)
    requires i < j < |skills|
    requires Contains(n, skills[i].0) && Contains(n, skills[j].0)
    ensures |Mentioned(skills, n)| >= 2
  {
    var rest := skills[1..];
    if i == 0 {
      assert rest[j - 1] == skills[j];
      MentionedComplete(rest, n, j - 1);
      assert Mentioned(skills, n) == [skills[0]] + Mentioned(rest, n);
    } else {
      assert rest[i - 1] == skills[i] && rest[j - 1] == skills[j];
      TwoMentioned(rest, n, i - 1, j - 1);
    }
  }

  /** An entry whose key is the only one occurring is all that is mentioned. */
  lemma {:induction false} OnlyMentioned(skills: seq<(string, SkillRecord)>, n: string, i: nat)
    requires i < |skills| && Contains(n, skills[i].0)
    requires forall j :: 0 <= j < |skills| && j != i ==> !Contains(n, skills[j].0)
    ensures Mentioned(skills, n) == [skills[i]]
  {
    var rest := skills[1..];
    assert forall j :: 0 <= j < |rest| ==> rest[j] == skills[j + 1];
    if i == 0 {
      NoneMentioned(rest, n);
      assert Mentioned(skills, n) == [skills[0]] + Mentioned(rest, n);
    } else {
      assert rest[i - 1] == skills[i];
      OnlyMentioned(rest, n, i - 1);
      assert Mentioned(skills, n) == Mentioned(rest, n);
    }
  }

  /** No entry is mentioned iff no key occurs in the input. */
  lemma {:induction false} NoneMentioned(skills: seq<(string, SkillRecord)>, n: string)
    ensures Mentioned(skills, n) == [] <==> forall j :: 0 <= j < |skills| ==> !Contains(n, skills[j].0)
  {
    if skills != [] {
      NoneMentioned(skills[1..], n);
      assert forall j :: 1 <= j < |skills| ==> skills[j] == skills[1..][j - 1];
    }
  }

  /** An empty skill key occurs in every input, so it is always mentioned:
      with such a key, skill lookup can only ever answer for that key. */
  lemma EmptyKeyAlwaysMentioned(skills: seq<(string, SkillRecord)>, n: string, i: nat)
    requires i < |skills| && skills[i].0 == ""
    ensures skills[i] in Mentioned(skills, n)
    ensures forall k, r :: Mentioned(skills, n) == [(k, r)] ==> k == ""
  {
    EmptyOccursEverywhere(n);
    NoneMentioned(skills, n);
    MentionedComplete(skills, n, i);
  }

  /** Every entry whose key occurs in the input is mentioned. */
  lemma {:induction false} MentionedComplete(skills: seq<(string, SkillRecord)>, n: string, i: nat)
    requires i < |skills| && Contains(n, skills[i].0)
    ensures skills[i] in Mentioned(skills, n)
  {
    if i > 0 {
      assert skills[1..][i - 1] == skills[i];
      MentionedComplete(skills[1..], n, i - 1);
    }
  }

  const ExcellentChoice := "** is an excellent choice!\n\n"
  const DescriptionLabel := "**Description:** "
  const KeySkillsLabel := "**Key Skills:** "
  const ToolsLabel := "**Common Tools:** "
  const SalaryLabel := "**Salary in India:** Approximately "
  const CareerPathLabel := "**Career Path:** "

  function Heading(skill: string): string { "**" + Title(skill) + ExcellentChoice }
  function DescriptionSection(info: SkillRecord): string { DescriptionLabel + FieldOr(info.description) + "\n\n" }
  function KeySkillsSection(info: SkillRecord): string { KeySkillsLabel + SafeJoin(info.keySkills) + "\n\n" }
  function ToolsSection(info: SkillRecord): string { ToolsLabel + SafeJoin(info.tools) + "\n\n" }
  function SalarySection(info: SkillRecord): string { SalaryLabel + FieldOr(info.salaryRangeInr) + ".\n\n" }
  function CareerPathSection(info: SkillRecord): string { CareerPathLabel + FieldOr(info.careerPath) }

  /** The reply of the skill-lookup intent for the entry `(skill, info)`. */
  function SkillReply(skill: string, info: SkillRecord): string {
    Heading(skill) + DescriptionSection(info) + KeySkillsSection(info)
    + ToolsSection(info) + SalarySection(info) + CareerPathSection(info)
  }

  /** `b` occurs at the end of `a + b`. */
  lemma EndsWith(a: string, b: string)
    ensures OccursAt(a + b, b, |a|)
  {
    assert (a + b)[|a|..|a| + |b|] == b;
  }

  /** An occurrence stays where it is when text is appended. */
  lemma ExtendRight(x: string, b: string, i: nat, y: string)
    requires OccursAt(x, b, i)
    ensures OccursAt(x + y, b, i)
  {
    assert (x + y)[i..i + |b|] == x[i..i + |b|];
  }

  /** Each of six concatenated parts occurs in the concatenation. */
  lemma SixParts(h: string, d: string, k: string, t: string, s: string, c: string)
    ensures OccursAt(h + d + k + t + s + c, h, 0)
    ensures Contains(h + d + k + t + s + c, d) && Contains(h + d + k + t + s + c, k)
    ensures Contains(h + d + k + t + s + c, t) && Contains(h + d + k + t + s + c, s)
    ensures Contains(h + d + k + t + s + c, c)
  {
    var hd, hdk := h + d, h + d + k;
    var hdkt, hdkts := hdk + t, hdk + t + s;
    EndsWith("", h);
    assert "" + h == h;
    ExtendRight(h, h, 0, d);
    ExtendRight(hd, h, 0, k);
    ExtendRight(hdk, h, 0, t);
    ExtendRight(hdkt, h, 0, s);
    ExtendRight(hdkts, h, 0, c);
    EndsWith(h, d);
    ExtendRight(hd, d, |h|, k);
    ExtendRight(hdk, d, |h|, t);
    ExtendRight(hdkt, d, |h|, s);
    ExtendRight(hdkts, d, |h|, c);
    EndsWith(hd, k);
    ExtendRight(hdk, k, |hd|, t);
    ExtendRight(hdkt, k, |hd|, s);
    ExtendRight(hdkts, k, |hd|, c);
    EndsWith(hdk, t);
    ExtendRight(hdkt, t, |hdk|, s);
    ExtendRight(hdkts, t, |hdk|, c);
    EndsWith(hdkt, s);
    ExtendRight(hdkts, s, |hdkt|, c);
    EndsWith(hdkts, c);
  }

  /** The skill reply carries each section of the record: the description,
      salary and career path (or "N/A" for an absent key), and the key skills
      and tools as `safe_join` renders them, after a title-cased heading. */
  lemma SkillReplySections(skill: string, info: SkillRecord)
    ensures OccursAt(SkillReply(skill, info), "**" + Title(skill) + ExcellentChoice, 0)
    ensures Contains(SkillReply(skill, info), DescriptionLabel + FieldOr(info.description) + "\n\n")
    ensures Contains(SkillReply(skill, info), KeySkillsLabel + SafeJoin(info.keySkills) + "\n\n")
    ensures Contains(SkillReply(skill, info), ToolsLabel + SafeJoin(info.tools) + "\n\n")
    ensures Contains(SkillReply(skill, info), SalaryLabel + FieldOr(info.salaryRangeInr) + ".\n\n")
    ensures Contains(SkillReply(skill, info), CareerPathLabel + FieldOr(info.careerPath))
  {
    SixParts(Heading(skill), DescriptionSection(info), KeySkillsSection(info),
             ToolsSection(info), SalarySection(info), CareerPathSection(info));
  }

  // ---------------------------------------------------------------- category listing

  const ListHeader := "Of course! I have information on these career categories:\n\n"
  const ListFooter := "You can ask for details about any specific career!"

  /** A category name with each of its words capitalised, joined by single spaces. */
  function FormatCategory(name: string): string {
    Join(" ", CapitalizeAll(Split(name)))
  }

  /** The paragraph the category listing writes for one category. */
  function CategoryBlock(category: (string, seq<string>)): (r: string)
    ensures |r| >= 7
  {
    "**" + FormatCategory(category.0) + "**\n" + Join(", ", category.1) + "\n\n"
  }

  /** The blocks of all categories, in insertion order. */
  function Blocks(categories: seq<(string, seq<string>)>): string {
    if categories == [] then ""
    else Blocks(categories[..|categories| - 1]) + CategoryBlock(categories[|categories| - 1])
  }

  /** The reply of the category-listing intent. */
  function CategoryReply(categories: seq<(string, seq<string>)>): string {
    ListHeader + Blocks(categories) + ListFooter
  }

  lemma {:induction false} BlocksAppend(a: seq<(string, seq<string>)>, b: seq<(string, seq<string>)>)
    ensures Blocks(a + b) == Blocks(a) + Blocks(b)
    decreases |b|
  {
    if b == [] {
      assert a + b == a;
    } else {
      var init, last := b[..|b| - 1], b[|b| - 1];
      assert (a + b)[..|a + b| - 1] == a + init;
      assert (a + b)[|a + b| - 1] == last;
      BlocksAppend(a, init);
      Associate(Blocks(a), Blocks(init), CategoryBlock(last));
    }
  }

  lemma Associate(x: string, y: string, z: string)
    ensures x + y + z == x + (y + z)
  {
  }

  lemma Regroup(h: string, p: string, b: string, q: string, f: string)
    ensures h + (p + b + q) + f == h + p + b + q + f
  {
  }

  /** The category listing is the header, then the blocks of the categories
      inserted before category `i`, then its own block, then the blocks of
      those inserted after it, then the footer: every category appears, in
      insertion order. */
  lemma CategoryListingOrder(categories: seq<(string, seq<string>)>, i: nat)
    requires i < |categories|
    ensures CategoryReply(categories) ==
      ListHeader + Blocks(categories[..i]) + CategoryBlock(categories[i])
      + Blocks(categories[i + 1..]) + ListFooter
  {
    var pre, post := categories[..i], categories[i + 1..];
    assert categories == pre + [categories[i]] + post;
    BlocksAppend(pre + [categories[i]], post);
    BlocksAppend(pre, [categories[i]]);
    assert Blocks([categories[i]]) == CategoryBlock(categories[i]) by {
      assert [categories[i]][..0] == [];
    }
    Regroup(ListHeader, Blocks(pre), CategoryBlock(categories[i]), Blocks(post), ListFooter);
  }
}
