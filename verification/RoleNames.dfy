/** The levels of role names that are not written as the table lists them
    (rbac/constants/rbac.constants.ts). */
module RoleNames {
  import opened Texts
  import opened TextLaws
  import opened RbacConstants

  // ---- other spellings of a listed name

  predicate IsWord(s: string) {
    s != "" && forall i | 0 <= i < |s| :: !IsSpace(s[i])
  }

  /** Words with white space between them. */
  ghost predicate IsSpelling(words: seq<string>, gaps: seq<string>) {
    && |words| == |gaps| + 1
    && (forall i | 0 <= i < |words| :: IsWord(words[i]))
    && (forall i | 0 <= i < |gaps| :: gaps[i] != "" && AllSpace(gaps[i]))
  }

  function Spelled(words: seq<string>, gaps: seq<string>): string
    requires |words| == |gaps| + 1
  {
    if gaps == [] then words[0] else words[0] + gaps[0] + Spelled(words[1..], gaps[1..])
  }

  /** Words with one underscore between them. */
  function Underscored(words: seq<string>): string
    requires words != []
  {
    if |words| == 1 then words[0] else words[0] + "_" + Underscored(words[1..])
  }

  lemma {:induction false} SpelledIsTight(words: seq<string>, gaps: seq<string>)
    requires IsSpelling(words, gaps)
    ensures Tight(Spelled(words, gaps))
  {
    assert IsWord(words[0]);
    if gaps != [] {
      SpelledIsTight(words[1..], gaps[1..]);
    }
  }

  lemma {:induction false} WordStays(word: string, rest: string)
    requires IsWord(word)
    ensures JoinWords(word + rest) == word + JoinWords(rest)
  {
    assert (word + rest)[1..] == word[1..] + rest;
    if |word| > 1 {
      WordStays(word[1..], rest);
    }
    assert word == [word[0]] + word[1..];
    if |word| == 1 {
      assert word[1..] + rest == rest;
    }
  }

  lemma {:induction false} GapIsUnderscore(gap: string, rest: string)
    requires gap != "" && AllSpace(gap) && rest != "" && !IsSpace(rest[0])
    ensures JoinWords(gap + rest) == "_" + JoinWords(rest)
  {
    assert (gap + rest)[1..] == gap[1..] + rest;
    if |gap| > 1 {
      GapIsUnderscore(gap[1..], rest);
    } else {
      assert gap[1..] + rest == rest;
    }
  }

  lemma {:induction false} JoinsSpelling(words: seq<string>, gaps: seq<string>)
    requires IsSpelling(words, gaps)
    ensures JoinWords(Spelled(words, gaps)) == Underscored(words)
  {
    assert IsWord(words[0]);
    if gaps == [] {
      WordStays(words[0], "");
      assert words[0] + "" == words[0];
    } else {
      var rest := Spelled(words[1..], gaps[1..]);
      JoinsSpelling(words[1..], gaps[1..]);
      SpelledIsTight(words[1..], gaps[1..]);
      GapIsUnderscore(gaps[0], rest);
      WordStays(words[0], gaps[0] + rest);
      assert words[0] + gaps[0] + rest == words[0] + (gaps[0] + rest);
    }
  }

  lemma UpperAppend(a: string, b: string)
    ensures Upper(a + b) == Upper(a) + Upper(b)
  {
  }

  function Uppers(words: seq<string>): (uppers: seq<string>)
    ensures |uppers| == |words| && forall i | 0 <= i < |words| :: uppers[i] == Upper(words[i])
  {
    seq(|words|, i requires 0 <= i < |words| => Upper(words[i]))
  }

  lemma {:induction false} UpperSpelling(words: seq<string>, gaps: seq<string>)
    requires IsSpelling(words, gaps)
    ensures IsSpelling(Uppers(words), gaps)
    ensures Upper(Spelled(words, gaps)) == Spelled(Uppers(words), gaps)
  {
    forall i | 0 <= i < |words| ensures IsWord(Uppers(words)[i]) {
      assert IsWord(words[i]);
      forall j | 0 <= j < |words[i]| ensures !IsSpace(Upper(words[i])[j]) {
        assert !IsSpace(words[i][j]);
      }
    }
    if gaps != [] {
      UpperSpelling(words[1..], gaps[1..]);
      assert Uppers(words)[1..] == Uppers(words[1..]);
      UpperAppend(words[0] + gaps[0], Spelled(words[1..], gaps[1..]));
      UpperAppend(words[0], gaps[0]);
      assert Upper(gaps[0]) == gaps[0];
    }
  }

  /** A name that is listed but for letter case, white space in an underscore's place and white space around it
      has the level of the listed one. */
  lemma SpellingHasListedLevel(before: string, words: seq<string>, gaps: seq<string>, after: string, listed: string)
    requires IsSpelling(words, gaps) && AllSpace(before) && AllSpace(after)
    requires ListedLevel(listed).Some? && listed == Underscored(Uppers(words))
    requires ListedLevel(before + Spelled(words, gaps) + after).None?
    ensures ResolveRoleHierarchyLevel(before + Spelled(words, gaps) + after) == ResolveRoleHierarchyLevel(listed)
  {
    SpelledIsTight(words, gaps);
    TrimPadded(before, Spelled(words, gaps), after);
    UpperSpelling(words, gaps);
    JoinsSpelling(Uppers(words), gaps);
  }

  // ---- every other name

  /** The word, in any letter case, at this place of the name. */
  ghost predicate SaysAt(name: string, word: string, i: int) {
    0 <= i <= |name| - |word| && forall j | 0 <= j < |word| :: UpperChar(name[i + j]) == word[j]
  }

  ghost predicate Says(name: string, word: string) {
    exists i :: SaysAt(name, word, i)
  }

  /** "SUPER" and "ADMIN" next to each other, or with one character other than a line break between them. */
  ghost predicate SaysSuperAdmin(name: string) {
    exists i :: SaysAt(name, "SUPER", i)
      && (SaysAt(name, "ADMIN", i + 5) || (SaysAt(name, "ADMIN", i + 6) && !IsLineBreak(name[i + 5])))
  }

  lemma OccursIsSaid(name: string, word: string, i: int)
    ensures OccursAt(word, Upper(name), i) <==> SaysAt(name, word, i)
  {
    if 0 <= i <= |name| - |word| {
      var part := Upper(name)[i..i + |word|];
      assert forall j | 0 <= j < |word| :: part[j] == UpperChar(name[i + j]);
    }
  }

  lemma MentionsIsSaid(name: string, word: string)
    ensures Mentions(name, word) <==> Says(name, word)
  {
    forall i: int ensures OccursAt(word, Upper(name), i) <==> SaysAt(name, word, i) {
      OccursIsSaid(name, word, i);
    }
    if Says(name, word) {
      var i :| SaysAt(name, word, i);
      assert OccursAt(word, Upper(name), i);
    }
  }

  lemma SuperAdminIsSaid(name: string)
    ensures LooksSuperAdmin(name) <==> SaysSuperAdmin(name)
  {
    forall i: int, word: string ensures OccursAt(word, Upper(name), i) <==> SaysAt(name, word, i) {
      OccursIsSaid(name, word, i);
    }
    assert forall c: char :: IsLineBreak(UpperChar(c)) <==> IsLineBreak(c);
    if SaysSuperAdmin(name) {
      var i :| SaysAt(name, "SUPER", i)
        && (SaysAt(name, "ADMIN", i + 5) || (SaysAt(name, "ADMIN", i + 6) && !IsLineBreak(name[i + 5])));
      assert OccursAt("SUPER", Upper(name), i);
    }
  }

  /** A name that is listed in no spelling has the level of the highest listed role it speaks of, or the
      lowest. */
  lemma UnlistedLevel(name: string)
    requires ListedLevel(name).None? && ListedLevel(NormalizedName(name)).None?
    ensures ResolveRoleHierarchyLevel(name) == ResolveRoleHierarchyLevel(
      if SaysSuperAdmin(name) then "BANK_SUPER_ADMIN"
      else if Says(name, "BANK_ADMIN") then "BANK_ADMIN"
      else if Says(name, "MAKER") || Says(name, "CHECKER") then "BANK_MAKER"
      else "RETAIL_CUSTOMER")
  {
    SuperAdminIsSaid(name);
    MentionsIsSaid(name, "BANK_ADMIN");
    MentionsIsSaid(name, "MAKER");
    MentionsIsSaid(name, "CHECKER");
  }

  lemma SuperAdminNormalized(gap: string)
    requires gap != "" && AllSpace(gap)
    ensures NormalizedName("SUPER" + gap + "ADMIN") == "SUPER_ADMIN"
  {
    var words, gaps := ["SUPER", "ADMIN"], [gap];
    assert IsSpelling(words, gaps) by {
      assert IsWord(words[0]) && IsWord(words[1]);
    }
    assert Spelled(words, gaps) == "SUPER" + gap + "ADMIN" by {
      assert Spelled(words[1..], gaps[1..]) == "ADMIN";
    }
    assert Underscored(Uppers(words)) == "SUPER_ADMIN" by {
      assert Uppers(words)[0] == "SUPER" && Uppers(words)[1] == "ADMIN";
      assert Underscored(Uppers(words)[1..]) == "ADMIN";
    }
    SpelledIsTight(words, gaps);
    TrimPadded("", Spelled(words, gaps), "");
    assert "" + Spelled(words, gaps) + "" == Spelled(words, gaps);
    UpperSpelling(words, gaps);
    JoinsSpelling(Uppers(words), gaps);
  }

  lemma NeverSays(name: string, word: string, j: nat)
    requires j < |word| && forall i | 0 <= i < |name| :: UpperChar(name[i]) != word[j]
    ensures !Says(name, word)
  {
    forall i: int ensures !SaysAt(name, word, i) {
      if 0 <= i <= |name| - |word| {
        assert UpperChar(name[i + j]) != word[j];
      }
    }
  }

  lemma SaysItsFirst(name: string, word: string, i: int)
    requires SaysAt(name, word, i) && word != ""
    ensures 0 <= i < |name| && UpperChar(name[i]) == word[0]
  {
    assert UpperChar(name[i + 0]) == word[0];
  }

  lemma GapSaysNoOther(gap: string)
    requires AllSpace(gap)
    ensures var name := "SUPER" + gap + "ADMIN";
      !Says(name, "BANK_ADMIN") && !Says(name, "CHECKER") && !Says(name, "MAKER")
  {
    var name := "SUPER" + gap + "ADMIN";
    forall i | 0 <= i < |name|
      ensures UpperChar(name[i]) != 'B' && UpperChar(name[i]) != 'C' && UpperChar(name[i]) != 'K'
    {
      assert 5 <= i < 5 + |gap| ==> name[i] == gap[i - 5];
    }
    NeverSays(name, "BANK_ADMIN", 0);
    NeverSays(name, "CHECKER", 0);
    NeverSays(name, "MAKER", 2);
  }

  lemma GapSaysSuperAdmin(name: string, gap: nat)
    requires gap > 0 && SaysAt(name, "SUPER", 0) && SaysAt(name, "ADMIN", 5 + gap)
    requires forall i | 0 < i < |name| :: UpperChar(name[i]) != 'S'
    requires forall i | 5 <= i < 5 + gap :: IsSpace(name[i])
    ensures SaysSuperAdmin(name) <==> gap == 1 && !IsLineBreak(name[5])
  {
    forall i: int | SaysAt(name, "SUPER", i) ensures i == 0 {
      SaysItsFirst(name, "SUPER", i);
    }
    forall i: int | SaysAt(name, "ADMIN", i) ensures !(5 <= i < 5 + gap) {
      SaysItsFirst(name, "ADMIN", i);
    }
  }

  lemma GapSays(gap: string)
    requires gap != "" && AllSpace(gap)
    ensures var name := "SUPER" + gap + "ADMIN";
      SaysSuperAdmin(name) <==> |gap| == 1 && !IsLineBreak(gap[0])
  {
    var name := "SUPER" + gap + "ADMIN";
    assert forall i | 5 <= i < 5 + |gap| :: name[i] == gap[i - 5];
    GapSaysSuperAdmin(name, |gap|);
  }

  lemma NotListed(gap: string)
    requires gap != "" && AllSpace(gap)
    ensures ListedLevel("SUPER" + gap + "ADMIN").None?
  {
    var name := "SUPER" + gap + "ADMIN";
    assert name[0] == 'S' && name[5] == gap[0];
  }

  /** Spelling does matter for a name that is not listed: two words that make a superadmin with one space between
      them make nobody with two. */
  lemma GapDecidesSuperAdmin(gap: string)
    requires gap != "" && AllSpace(gap)
    ensures ResolveRoleHierarchyLevel("SUPER" + gap + "ADMIN") ==
      if |gap| == 1 && !IsLineBreak(gap[0]) then ResolveRoleHierarchyLevel("BANK_SUPER_ADMIN")
      else ResolveRoleHierarchyLevel("RETAIL_CUSTOMER")
  {
    var name := "SUPER" + gap + "ADMIN";
    SuperAdminNormalized(gap);
    NotListed(gap);
    UnlistedLevel(name);
    GapSaysNoOther(gap);
    GapSays(gap);
  }
}
