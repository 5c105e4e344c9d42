/**
 * The call-center activity classifier: a keyword matcher that accepts a
 * keyword when it occurs in the text or when its similarity ratio with the
 * text reaches a threshold, a first-match cascade over three keyword lists,
 * and the summary of call-center jobs by the share of their activities in
 * each class.
 *
 * The similarity ratio of `difflib.SequenceMatcher` is not part of this
 * model: every function that needs it takes it as a parameter `ratio`, of
 * which only its range [0, 1] is known.
 */
module Classifier {

  datatype Option<T> = None | Some(value: T)

  /** A similarity ratio. */
  type Ratio = r: real | 0.0 <= r <= 1.0

  /** `SequenceMatcher(None, keyword, text).ratio()`, as a function of keyword and text. */
  type Similarity = (string, string) -> Ratio

  const AutomatableKeywords: seq<string> := [
    "entering", "inputting", "recording", "logging", "verifying", "checking",
    "reviewing", "processing", "filing", "categorizing", "transcribing", "responding",
    "replying", "acknowledging", "scanning", "updating records", "validating data"
  ]

  const AugmentableKeywords: seq<string> := [
    "solving", "analyzing", "interpreting", "investigating", "diagnosing", "training",
    "demonstrating", "explaining", "advising", "recommending", "identifying solutions",
    "determining cause", "troubleshooting"
  ]

  const IrreplaceableKeywords: seq<string> := [
    "resolving conflict", "empathizing", "motivating", "building relationships",
    "negotiating", "calming", "de-escalating", "soothing", "adapting to emotions",
    "handling sensitive topics", "consoling", "counseling"
  ]

  /** Keywords that make a job title a call-center job. */
  const CallCenterKeywords: seq<string> := [
    "customer service", "call center", "user support", "help desk", "customer support"
  ]

  /** The matcher's default threshold, the one the classifier uses. */
  const DefaultThreshold: real := 0.85

  // --------------------------------------------------------------- matching

  /** `pattern` occurs in `text` starting at index `i`. */
  predicate OccursAt(text: string, pattern: string, i: nat)
  {
    i + |pattern| <= |text| && text[i..i + |pattern|] == pattern
  }

  /** `pattern` occurs in `text` as a contiguous substring (Python's `pattern in text`). */
  predicate Contains(text: string, pattern: string)
  {
    exists i: nat :: i <= |text| && OccursAt(text, pattern, i)
  }

  /** The reference meaning of a fuzzy match: some keyword occurs in the text or is similar enough to it. */
  predicate SomeKeywordMatches(text: string, keywords: seq<string>, ratio: Similarity, threshold: real)
  {
    exists k :: 0 <= k < |keywords| && (Contains(text, keywords[k]) || ratio(keywords[k], text) >= threshold)
  }

  /** The keywords in order, returning at the first one that occurs in the text or reaches the threshold. */
  function FuzzyMatch(text: string, keywords: seq<string>, ratio: Similarity, threshold: real): (r: bool)
    ensures r <==> SomeKeywordMatches(text, keywords, ratio, threshold)
    // an occurring keyword matches, whatever the ratios
    ensures (exists k :: 0 <= k < |keywords| && Contains(text, keywords[k])) ==> r
    // false exactly when no keyword occurs and every ratio is below the threshold
    ensures !r <==> forall k :: 0 <= k < |keywords| ==>
                      !Contains(text, keywords[k]) && ratio(keywords[k], text) < threshold
    ensures keywords == [] ==> !r
  {
    if keywords == [] then false
    else if Contains(text, keywords[0]) then true
    else if ratio(keywords[0], text) >= threshold then true
    else
      var rest := FuzzyMatch(text, keywords[1..], ratio, threshold);
      assert forall k :: 1 <= k < |keywords| ==> keywords[k] == keywords[1..][k - 1];
      rest
  }

  // ---------------------------------------------------------------- casing

  function LowerChar(c: char): char
  {
    if 'A' <= c <= 'Z' then (c as int - 'A' as int + 'a' as int) as char else c
  }

  /** Lower-casing: every upper-case letter A-Z becomes its lower-case letter, nothing else changes. */
  function Lower(s: string): (r: string)
    ensures |r| == |s|
    ensures forall i :: 0 <= i < |s| ==> r[i] == LowerChar(s[i])
    ensures forall i :: 0 <= i < |r| ==> !('A' <= r[i] <= 'Z')
  {
    if s == [] then [] else [LowerChar(s[0])] + Lower(s[1..])
  }

  lemma LowerIdempotent(s: string)
    ensures Lower(Lower(s)) == Lower(s)
  {
    assert forall i :: 0 <= i < |s| ==> LowerChar(Lower(s)[i]) == Lower(s)[i];
  }

  // -------------------------------------------------------- classification

  /** The four classes, written "automatable", "augmentable", "irreplaceable" and "unclassified". */
  datatype Label = Automatable | Augmentable | Irreplaceable | Unclassified

  /**
   * Classify one activity by its lower-cased text: the first of the
   * automatable, augmentable and irreplaceable lists that matches decides.
   */
  function ClassifyActivity(activity: string, ratio: Similarity): (category: Label)
    ensures category == Automatable <==> SomeKeywordMatches(Lower(activity), AutomatableKeywords, ratio, DefaultThreshold)
    ensures category == Augmentable <==>
              !SomeKeywordMatches(Lower(activity), AutomatableKeywords, ratio, DefaultThreshold)
              && SomeKeywordMatches(Lower(activity), AugmentableKeywords, ratio, DefaultThreshold)
    ensures category == Irreplaceable <==>
              !SomeKeywordMatches(Lower(activity), AutomatableKeywords, ratio, DefaultThreshold)
              && !SomeKeywordMatches(Lower(activity), AugmentableKeywords, ratio, DefaultThreshold)
              && SomeKeywordMatches(Lower(activity), IrreplaceableKeywords, ratio, DefaultThreshold)
    ensures category == Unclassified <==>
              !SomeKeywordMatches(Lower(activity), AutomatableKeywords, ratio, DefaultThreshold)
              && !SomeKeywordMatches(Lower(activity), AugmentableKeywords, ratio, DefaultThreshold)
              && !SomeKeywordMatches(Lower(activity), IrreplaceableKeywords, ratio, DefaultThreshold)
  {
    var text := Lower(activity);
    if FuzzyMatch(text, AutomatableKeywords, ratio, DefaultThreshold) then Automatable
    else if FuzzyMatch(text, AugmentableKeywords, ratio, DefaultThreshold) then Augmentable
    else if FuzzyMatch(text, IrreplaceableKeywords, ratio, DefaultThreshold) then Irreplaceable
    else Unclassified
  }

  /** Classification sees only the lower-cased activity. */
  lemma ClassifyIgnoresCase(activity: string, ratio: Similarity)
    ensures ClassifyActivity(Lower(activity), ratio) == ClassifyActivity(activity, ratio)
  {
    LowerIdempotent(activity);
  }

  // ------------------------------------------------------ title whitespace

  /** The characters Python's `str.split()` treats as whitespace. */
  predicate IsSpace(c: char)
  {
    c == ' ' || '\U{9}' <= c <= '\U{d}' || '\U{1c}' <= c <= '\U{1f}' || c == '\U{85}' || c == '\U{a0}'
    || c == '\U{1680}' || '\U{2000}' <= c <= '\U{200a}' || c == '\U{2028}' || c == '\U{2029}'
    || c == '\U{202f}' || c == '\U{205f}' || c == '\U{3000}'
  }

  /** A non-empty run of non-whitespace characters. */
  predicate IsWord(w: string)
  {
    |w| > 0 && forall i :: 0 <= i < |w| ==> !IsSpace(w[i])
  }

  /** Length of the leading run of non-whitespace characters. */
  function WordLength(s: string): (k: nat)
    ensures k <= |s|
    ensures forall i :: 0 <= i < k ==> !IsSpace(s[i])
    ensures k < |s| ==> IsSpace(s[k])
  {
    if s == [] || IsSpace(s[0]) then 0 else 1 + WordLength(s[1..])
  }

  /** The characters of `s` that are not whitespace, in order. */
  function NonSpace(s: string): string
  {
    if s == [] then "" else (if IsSpace(s[0]) then "" else [s[0]]) + NonSpace(s[1..])
  }

  /** The words written one after another, with nothing between them. */
  function Concat(words: seq<string>): string
  {
    if words == [] then "" else words[0] + Concat(words[1..])
  }

  lemma {:induction false} NonSpaceAppend(a: string, b: string)
    ensures NonSpace(a + b) == NonSpace(a) + NonSpace(b)
  {
    if a == [] {
      assert a + b == b;
    } else {
      assert (a + b)[0] == a[0] && (a + b)[1..] == a[1..] + b;
      NonSpaceAppend(a[1..], b);
    }
  }

  /** A leading run of non-whitespace characters is kept whole. */
  lemma {:induction false} NonSpaceWordPrefix(s: string, k: nat)
    requires k <= |s| && forall i :: 0 <= i < k ==> !IsSpace(s[i])
    ensures NonSpace(s) == s[..k] + NonSpace(s[k..])
    decreases k
  {
    if k > 0 {
      NonSpaceWordPrefix(s[1..], k - 1);
      assert s[1..][k - 1..] == s[k..];
      assert s[..k] == [s[0]] + s[1..][..k - 1];
    }
  }

  /** `s.split()`: the maximal runs of non-whitespace characters, in order. */
  function Split(s: string): (words: seq<string>)
    ensures forall k :: 0 <= k < |words| ==> IsWord(words[k])
    // no character other than whitespace is lost, added or moved
    ensures Concat(words) == NonSpace(s)
    decreases |s|
  {
    if s == [] then []
    else if IsSpace(s[0]) then Split(s[1..])
    else
      var k := WordLength(s);
      var rest := Split(s[k..]);
      NonSpaceWordPrefix(s, k);
      assert ([s[..k]] + rest)[1..] == rest;
      [s[..k]] + rest
  }

  /** A word's length is unchanged by anything appended after a whitespace character. */
  lemma {:induction false} WordLengthAppend(a: string, t: string)
    requires t != [] && IsSpace(t[0])
    ensures WordLength(a + t) == WordLength(a)
  {
    if a == [] {
      assert a + t == t;
    } else {
      assert (a + t)[0] == a[0] && (a + t)[1..] == a[1..] + t;
      WordLengthAppend(a[1..], t);
    }
  }

  /** Split of a string that starts with a word: that word, then the split of the rest. */
  lemma SplitWord(s: string)
    requires s != [] && !IsSpace(s[0])
    ensures Split(s) == [s[..WordLength(s)]] + Split(s[WordLength(s)..])
  {
  }

  /** A whitespace character always separates words: what is on each side is split on its own. */
  lemma {:induction false} SplitSeparates(a: string, c: char, b: string)
    requires IsSpace(c)
    ensures Split(a + [c] + b) == Split(a) + Split(b)
    decreases |a|, 1
  {
    var s := a + [c] + b;
    if a == [] {
      assert s == [c] + b && s[1..] == b;
    } else if IsSpace(a[0]) {
      assert s[0] == a[0] && s[1..] == a[1..] + [c] + b;
      SplitSeparates(a[1..], c, b);
    } else {
      SplitSeparatesAfterWord(a, c, b);
    }
  }

  /** `SplitSeparates` when `a` starts with a word: the word is cut off before `c`. */
  lemma {:induction false} SplitSeparatesAfterWord(a: string, c: char, b: string)
    requires IsSpace(c) && a != [] && !IsSpace(a[0])
    ensures Split(a + [c] + b) == Split(a) + Split(b)
    decreases |a|, 0
  {
    var s, k := a + [c] + b, WordLength(a);
    assert s == a + ([c] + b);
    WordLengthAppend(a, [c] + b);
    SlicesAround(a, c, b, k);
    SplitWord(s);
    SplitWord(a);
    SplitSeparates(a[k..], c, b);
    ConsAppend(a[..k], Split(a[k..]), Split(b));
  }

  lemma SlicesAround<T>(a: seq<T>, c: T, b: seq<T>, k: nat)
    requires 0 < k <= |a|
    ensures (a + [c] + b)[0] == a[0] && (a + [c] + b)[..k] == a[..k] && (a + [c] + b)[k..] == a[k..] + [c] + b
  {
  }

  lemma ConsAppend<T>(x: T, left: seq<T>, right: seq<T>)
    ensures [x] + (left + right) == ([x] + left) + right
  {
  }

  /** `" ".join(words)`. */
  function Join(words: seq<string>): string
  {
    if words == [] then ""
    else if |words| == 1 then words[0]
    else words[0] + " " + Join(words[1..])
  }

  /** Every whitespace character is a single space with a non-whitespace character on each side. */
  predicate SingleSpaced(t: string)
  {
    forall i :: 0 <= i < |t| && IsSpace(t[i]) ==>
      t[i] == ' ' && 0 < i < |t| - 1 && !IsSpace(t[i - 1]) && !IsSpace(t[i + 1])
  }

  lemma {:induction false} JoinSingleSpaced(words: seq<string>)
    requires forall k :: 0 <= k < |words| ==> IsWord(words[k])
    ensures SingleSpaced(Join(words))
    ensures words != [] ==> |Join(words)| > 0 && !IsSpace(Join(words)[0]) && !IsSpace(Join(words)[|Join(words)| - 1])
  {
    if |words| > 1 {
      var w, rest := words[0], Join(words[1..]);
      JoinSingleSpaced(words[1..]);
      var t := Join(words);
      assert t == w + " " + rest;
      forall i | 0 <= i < |t| && IsSpace(t[i])
        ensures t[i] == ' ' && 0 < i < |t| - 1 && !IsSpace(t[i - 1]) && !IsSpace(t[i + 1])
      {
        if i > |w| {
          assert t[i] == rest[i - |w| - 1];
          assert t[i - 1] == rest[i - |w| - 2];
          assert t[i + 1] == rest[i - |w|];
        }
      }
    }
  }

  lemma {:induction false} SplitJoin(words: seq<string>)
    requires forall k :: 0 <= k < |words| ==> IsWord(words[k])
    ensures Split(Join(words)) == words
  {
    if words == [] {
    } else if |words| == 1 {
      var w := words[0];
      assert WordLength(w) == |w|;
      assert w[..|w|] == w && w[|w|..] == [];
    } else {
      var w, rest := words[0], Join(words[1..]);
      var s := w + " " + rest;
      assert Join(words) == s;
      assert s[|w|] == ' ';
      assert forall i :: 0 <= i < |w| ==> s[i] == w[i];
      assert WordLength(s) == |w|;
      assert s[..|w|] == w;
      assert s[|w|..] == " " + rest;
      assert (" " + rest)[1..] == rest;
      SplitJoin(words[1..]);
    }
  }

  /** A word survives whole when whitespace is dropped. */
  lemma NonSpaceWord(w: string)
    requires IsWord(w)
    ensures NonSpace(w) == w
  {
    NonSpaceWordPrefix(w, |w|);
    assert w[..|w|] == w && w[|w|..] == [];
  }

  /** Joining words with single spaces adds only whitespace. */
  lemma {:induction false} NonSpaceJoin(words: seq<string>)
    requires forall k :: 0 <= k < |words| ==> IsWord(words[k])
    ensures NonSpace(Join(words)) == Concat(words)
  {
    if |words| == 1 {
      NonSpaceWord(words[0]);
      assert words[1..] == [];
      assert Concat(words) == words[0] + Concat(words[1..]);
    } else if |words| > 1 {
      var w, rest := words[0], words[1..];
      assert IsWord(w);
      assert forall k :: 0 <= k < |rest| ==> IsWord(rest[k]) by {
        forall k | 0 <= k < |rest| ensures IsWord(rest[k]) { assert rest[k] == words[k + 1]; }
      }
      NonSpaceJoin(rest);
      NonSpaceWord(w);
      assert NonSpace(" ") == "" by { assert IsSpace(' '); assert " "[1..] == ""; }
      NonSpaceAppend(w, " ");
      NonSpaceAppend(w + " ", Join(rest));
      assert Join(words) == (w + " ") + Join(rest);
      assert Concat(words) == w + Concat(rest);
    }
  }

  /** The title clean-up: split on whitespace runs, join with single spaces. */
  function NormalizeTitle(raw: string): (title: string)
    ensures SingleSpaced(title)
    ensures |title| > 0 ==> title[0] != ' ' && title[|title| - 1] != ' '
    ensures forall i :: 0 <= i < |title| - 1 ==> !(title[i] == ' ' && title[i + 1] == ' ')
    // the raw title's non-whitespace characters all survive, in order
    ensures NonSpace(title) == NonSpace(raw)
  {
    JoinSingleSpaced(Split(raw));
    NonSpaceJoin(Split(raw));
    Join(Split(raw))
  }

  /** The normalised title has exactly the raw title's words, in order. */
  lemma SplitNormalizeTitle(raw: string)
    ensures Split(NormalizeTitle(raw)) == Split(raw)
  {
    SplitJoin(Split(raw));
  }

  lemma NormalizeTitleIdempotent(raw: string)
    ensures NormalizeTitle(NormalizeTitle(raw)) == NormalizeTitle(raw)
  {
    SplitNormalizeTitle(raw);
  }

  // --------------------------------------------------------------- summary

  /** A job record: either field may be missing. */
  datatype Job = Job(jobTitle: Option<string>, workActivities: Option<seq<string>>)

  /** The job's title, the empty string when missing. */
  function TitleOf(job: Job): string
  {
    match job.jobTitle
    case Some(t) => t
    case None => ""
  }

  /** The job's activities, none when missing. */
  function ActivitiesOf(job: Job): seq<string>
  {
    match job.workActivities
    case Some(a) => a
    case None => []
  }

  /** Some call-center keyword occurs in the (lower-cased) title. */
  predicate IsCallCenterTitle(lowerTitle: string)
  {
    exists k :: 0 <= k < |CallCenterKeywords| && Contains(lowerTitle, CallCenterKeywords[k])
  }

  /** The job passes both filters: a call-center title and at least one activity. */
  predicate Qualifies(job: Job)
  {
    IsCallCenterTitle(Lower(NormalizeTitle(TitleOf(job)))) && ActivitiesOf(job) != []
  }

  /** How many of `activities` get `category`. */
  function Occurrences(activities: seq<string>, category: Label, ratio: Similarity): (n: nat)
    ensures n <= |activities|
  {
    if activities == [] then 0
    else
      Occurrences(activities[..|activities| - 1], category, ratio)
      + (if ClassifyActivity(activities[|activities| - 1], ratio) == category then 1 else 0)
  }

  /** Every activity gets exactly one of the four labels. */
  lemma {:induction false} OccurrencesPartition(activities: seq<string>, ratio: Similarity)
    ensures Occurrences(activities, Automatable, ratio) + Occurrences(activities, Augmentable, ratio)
            + Occurrences(activities, Irreplaceable, ratio) + Occurrences(activities, Unclassified, ratio)
            == |activities|
  {
    if activities != [] {
      OccurrencesPartition(activities[..|activities| - 1], ratio);
    }
  }

  lemma OccurrencesSnoc(activities: seq<string>, i: nat, ratio: Similarity)
    requires i < |activities|
    ensures forall category: Label :: Occurrences(activities[..i + 1], category, ratio)
              == Occurrences(activities[..i], category, ratio)
                 + (if ClassifyActivity(activities[i], ratio) == category then 1 else 0)
  {
    assert activities[..i + 1][..i] == activities[..i];
  }

  /** A counter's value for `category`: zero when the category was never counted. */
  function Get(counts: map<Label, nat>, category: Label): nat
  {
    if category in counts then counts[category] else 0
  }

  /** Count one more `category`. */
  function Increment(counts: map<Label, nat>, category: Label): (r: map<Label, nat>)
    ensures forall other: Label :: Get(r, other) == Get(counts, other) + (if other == category then 1 else 0)
  {
    counts[category := Get(counts, category) + 1]
  }

  /** The sum of a counter's values. */
  function Total(counts: map<Label, nat>): nat
  {
    Get(counts, Automatable) + Get(counts, Augmentable) + Get(counts, Irreplaceable) + Get(counts, Unclassified)
  }

  /** Count the labels of a job's activities. */
  method CountLabels(activities: seq<string>, ratio: Similarity) returns (counts: map<Label, nat>)
    ensures forall category: Label :: Get(counts, category) == Occurrences(activities, category, ratio)
    ensures Total(counts) == |activities|
  {
    counts := map[];
    for i := 0 to |activities|
      invariant forall category: Label :: Get(counts, category) == Occurrences(activities[..i], category, ratio)
    {
      var category := ClassifyActivity(activities[i], ratio);
      OccurrencesSnoc(activities, i, ratio);
      counts := Increment(counts, category);
    }
    assert activities[..|activities|] == activities;
    OccurrencesPartition(activities, ratio);
  }

  /** The automatable, augmentable and irreplaceable shares of a job's activities, in percent (unrounded). */
  datatype Percentages = Percentages(automatable: real, augmentable: real, irreplaceable: real)

  function Percent(count: nat, total: nat): real
    requires total > 0
  {
    count as real / total as real * 100.0
  }

  /** The percentages of the three classes among `activities`. */
  function SharesOf(activities: seq<string>, ratio: Similarity): (p: Percentages)
    requires activities != []
    ensures 0.0 <= p.automatable && 0.0 <= p.augmentable && 0.0 <= p.irreplaceable
    ensures p.automatable + p.augmentable + p.irreplaceable <= 100.0
    ensures p.automatable + p.augmentable + p.irreplaceable == 100.0
            <==> Occurrences(activities, Unclassified, ratio) == 0
  {
    var n := |activities|;
    OccurrencesPartition(activities, ratio);
    var a, b, c, u := Occurrences(activities, Automatable, ratio), Occurrences(activities, Augmentable, ratio),
                      Occurrences(activities, Irreplaceable, ratio), Occurrences(activities, Unclassified, ratio);
    PercentSum(a, b, c, u, n);
    Percentages(Percent(a, n), Percent(b, n), Percent(c, n))
  }

  lemma PercentSum(a: nat, b: nat, c: nat, u: nat, n: nat)
    requires n > 0 && a + b + c + u == n
    ensures 0.0 <= Percent(a, n) && 0.0 <= Percent(b, n) && 0.0 <= Percent(c, n) && 0.0 <= Percent(u, n)
    ensures Percent(a, n) + Percent(b, n) + Percent(c, n) == 100.0 - Percent(u, n)
    ensures Percent(u, n) == 0.0 <==> u == 0
  {
    var unit := 100.0 / n as real;
    assert unit > 0.0;
    PercentAsMultiple(a, n, unit);
    PercentAsMultiple(b, n, unit);
    PercentAsMultiple(c, n, unit);
    PercentAsMultiple(u, n, unit);
    assert (a + b + c + u) as real * unit == n as real * unit == 100.0;
  }

  lemma PercentAsMultiple(k: nat, n: nat, unit: real)
    requires n > 0 && unit == 100.0 / n as real
    ensures Percent(k, n) == k as real * unit
  {
  }

  /**
   * A dictionary built from entries in order: each present entry sets its
   * key, so a later entry with the same key replaces an earlier one.
   */
  function Collect<K, V>(entries: seq<Option<(K, V)>>): map<K, V>
  {
    if entries == [] then map[] else Put(Collect(entries[..|entries| - 1]), entries[|entries| - 1])
  }

  /** Store one entry, if there is one. */
  function Put<K, V>(m: map<K, V>, entry: Option<(K, V)>): map<K, V>
  {
    match entry
    case Some((key, value)) => m[key := value]
    case None => m
  }

  /** Entry `i` is present and has key `key`. */
  ghost predicate HasKey<K, V>(entries: seq<Option<(K, V)>>, i: int, key: K)
    requires 0 <= i < |entries|
  {
    entries[i].Some? && entries[i].value.0 == key
  }

  /**
   * A key in the dictionary comes from an entry, the last one with that key,
   * and holds that entry's value.
   */
  lemma {:induction false} CollectWitness<K, V>(entries: seq<Option<(K, V)>>, key: K) returns (i: nat)
    requires key in Collect(entries)
    ensures i < |entries| && entries[i] == Some((key, Collect(entries)[key]))
    ensures forall j :: i < j < |entries| ==> !HasKey(entries, j, key)
  {
    var prefix, last := entries[..|entries| - 1], entries[|entries| - 1];
    if last.Some? && last.value.0 == key {
      i := |entries| - 1;
    } else {
      i := CollectWitness(prefix, key);
      forall j | i < j < |entries|
        ensures !HasKey(entries, j, key)
      {
        if j < |prefix| {
          assert !HasKey(prefix, j, key) && prefix[j] == entries[j];
        }
      }
    }
  }

  /** Every present entry's key is in the dictionary. */
  lemma {:induction false} CollectHasKey<K, V>(entries: seq<Option<(K, V)>>, i: nat, key: K)
    requires i < |entries| && HasKey(entries, i, key)
    ensures key in Collect(entries)
  {
    var prefix := entries[..|entries| - 1];
    if i < |prefix| {
      assert HasKey(prefix, i, key) by { assert prefix[i] == entries[i]; }
      CollectHasKey(prefix, i, key);
    }
  }

  /** A qualifying job's entry in the summary: its normalised title and its class percentages. */
  function Entry(job: Job, ratio: Similarity): Option<(string, Percentages)>
  {
    if Qualifies(job) then Some((NormalizeTitle(TitleOf(job)), SharesOf(ActivitiesOf(job), ratio))) else None
  }

  function Entries(jobs: seq<Job>, ratio: Similarity): (es: seq<Option<(string, Percentages)>>)
    ensures |es| == |jobs| && forall i :: 0 <= i < |jobs| ==> es[i] == Entry(jobs[i], ratio)
  {
    seq(|jobs|, i requires 0 <= i < |jobs| => Entry(jobs[i], ratio))
  }

  /** The summary: the qualifying jobs' entries, a later job with the same title replacing an earlier one. */
  function SummaryOf(jobs: seq<Job>, ratio: Similarity): map<string, Percentages>
  {
    Collect(Entries(jobs, ratio))
  }

  /** The summary of one more job. */
  lemma SummaryOfSnoc(jobs: seq<Job>, i: nat, ratio: Similarity)
    requires i < |jobs|
    ensures SummaryOf(jobs[..i + 1], ratio) == Put(SummaryOf(jobs[..i], ratio), Entry(jobs[i], ratio))
  {
    assert Entries(jobs[..i + 1], ratio)[..i] == Entries(jobs[..i], ratio);
  }

  /** Filter the jobs, classify and count each kept job's activities, and record its percentages. */
  method Summarize(jobs: seq<Job>, ratio: Similarity) returns (results: map<string, Percentages>)
    ensures results == SummaryOf(jobs, ratio)
  {
    results := map[];
    for i := 0 to |jobs|
      invariant results == SummaryOf(jobs[..i], ratio)
    {
      SummaryOfSnoc(jobs, i, ratio);
      var job := jobs[i];
      var rawTitle := TitleOf(job);
      var title := NormalizeTitle(rawTitle);
      var lowerTitle := Lower(title);
      if !IsCallCenterTitle(lowerTitle) {
        continue;
      }
      var activities := ActivitiesOf(job);
      if activities == [] {
        continue;
      }
      var counts := CountLabels(activities, ratio);
      var total := Total(counts);
      if total == 0 {
        continue;
      }
      var percentages := Percentages(Percent(Get(counts, Automatable), total),
                                     Percent(Get(counts, Augmentable), total),
                                     Percent(Get(counts, Irreplaceable), total));
      results := results[title := percentages];
    }
    assert jobs[..|jobs|] == jobs;
  }

  /** The job is kept by the filters and recorded under `title`. */
  predicate KeptAs(job: Job, title: string)
  {
    Qualifies(job) && NormalizeTitle(TitleOf(job)) == title
  }

  /** The summary's titles are exactly the normalised titles of the qualifying jobs. */
  lemma SummaryKeys(jobs: seq<Job>, ratio: Similarity, title: string)
    ensures title in SummaryOf(jobs, ratio) <==> exists k :: 0 <= k < |jobs| && KeptAs(jobs[k], title)
  {
    var entries := Entries(jobs, ratio);
    if title in SummaryOf(jobs, ratio) {
      var k := CollectWitness(entries, title);
      assert KeptAs(jobs[k], title);
    }
    if exists k :: 0 <= k < |jobs| && KeptAs(jobs[k], title) {
      var k :| 0 <= k < |jobs| && KeptAs(jobs[k], title);
      CollectHasKey(entries, k, title);
    }
  }

  /**
   * A title's percentages are those of the last qualifying job with that
   * title; they are non-negative and add up to at most 100.
   */
  lemma SummaryShares(jobs: seq<Job>, ratio: Similarity, title: string) returns (k: nat)
    requires title in SummaryOf(jobs, ratio)
    ensures k < |jobs| && KeptAs(jobs[k], title)
    ensures forall j :: k < j < |jobs| ==> !KeptAs(jobs[j], title)
    ensures SummaryOf(jobs, ratio)[title] == SharesOf(ActivitiesOf(jobs[k]), ratio)
    ensures var p := SummaryOf(jobs, ratio)[title];
            0.0 <= p.automatable && 0.0 <= p.augmentable && 0.0 <= p.irreplaceable
            && p.automatable + p.augmentable + p.irreplaceable <= 100.0
  {
    var entries := Entries(jobs, ratio);
    k := CollectWitness(entries, title);
    forall j | k < j < |jobs|
      ensures !KeptAs(jobs[j], title)
    {
      assert !HasKey(entries, j, title);
    }
  }
}
