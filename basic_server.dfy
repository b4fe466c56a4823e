/** The tools and prompts of the basic MCP demo server: pure functions of
    their arguments. */
module BasicServer {
  import opened Text

  /** `add`: Python integers do not overflow. */
  function Add(a: int, b: int): (sum: int)
    ensures sum - b == a && sum - a == b
  {
    a + b
  }

  // ---------------------------------------------------------------------
  // greet
  // ---------------------------------------------------------------------

  function GreetingPrefix(formal: bool): string
  {
    if formal then "Good day, " else "Hello, "
  }

  function GreetingSuffix(formal: bool): string
  {
    if formal then ". How may I assist you?" else "!"
  }

  /** `greet`. */
  function Greet(name: string, formal: bool): (g: string)
    ensures GreetingPrefix(formal) <= g
    ensures |g| == |GreetingPrefix(formal)| + |name| + |GreetingSuffix(formal)|
    ensures g[|GreetingPrefix(formal)|..|g| - |GreetingSuffix(formal)|] == name
    ensures g[|g| - |GreetingSuffix(formal)|..] == GreetingSuffix(formal)
  {
    if formal then "Good day, " + name + ". How may I assist you?" else "Hello, " + name + "!"
  }

  /** Reads the name back out of a greeting. */
  function GreetedName(g: string, formal: bool): string
    requires |g| >= |GreetingPrefix(formal)| + |GreetingSuffix(formal)|
  {
    g[|GreetingPrefix(formal)|..|g| - |GreetingSuffix(formal)|]
  }

  /** The greeting names the person greeted: the name can be read back, so
      different names never get the same greeting. */
  lemma GreetRoundTrip(name: string, other: string, formal: bool)
    ensures GreetedName(Greet(name, formal), formal) == name
    ensures Greet(name, formal) == Greet(other, formal) ==> name == other
  {
  }

  /** The formal and the informal greeting always differ. */
  lemma GreetingsDiffer(name: string, other: string)
    ensures Greet(name, true) != Greet(other, false)
  {
    assert Greet(name, true)[0] == 'G' && Greet(other, false)[0] == 'H';
  }

  // ---------------------------------------------------------------------
  // get_length
  // ---------------------------------------------------------------------

  datatype LengthInfo = LengthInfo(characters: nat, words: nat, lines: nat)

  /** `get_length`: characters, `len(text.split())` and `len(text.splitlines()) or 1`. */
  function GetLength(text: string): (info: LengthInfo)
    ensures info.characters == |text|
    ensures info.lines >= 1
    ensures info.lines <= |text| || (info.lines == 1 && |text| == 0)
  {
    var lines := |SplitLines(text)|;
    LengthInfo(|text|, |Split(text)|, if lines == 0 then 1 else lines)
  }

  /** No words exactly for empty or whitespace-only text; empty text counts as one line. */
  lemma GetLengthOfBlank(text: string)
    ensures GetLength(text).words == 0 <==> AllSpace(text)
    ensures GetLength("") == LengthInfo(0, 0, 1)
  {
    SplitEmptyIffBlank(text);
  }

  /** Text made of words separated by single spaces has as many words as it was made of. */
  lemma GetLengthCountsWords(words: seq<string>)
    requires forall i :: 0 <= i < |words| ==> words[i] != "" && NoSpace(words[i])
    ensures GetLength(Join(words, " ")).words == |words|
  {
    SplitJoin(words);
  }

  /** Text made of lines joined with line feeds, the last one non-empty, has as many lines. */
  lemma GetLengthCountsLines(lines: seq<string>)
    requires |lines| >= 1 && lines[|lines| - 1] != ""
    requires forall i :: 0 <= i < |lines| ==> NoLineBreak(lines[i])
    ensures GetLength(Join(lines, "\n")).lines == |lines|
  {
    SplitLinesJoin(lines);
  }

  // ---------------------------------------------------------------------
  // Prompts
  // ---------------------------------------------------------------------

  const ExplainPrefix: string := "Please explain '"
  const ExplainSuffix: string := "' in simple terms that a beginner can understand."

  /** `explain_topic`. */
  function ExplainTopic(topic: string): (prompt: string)
    ensures ExplainPrefix <= prompt
    ensures |prompt| == |ExplainPrefix| + |topic| + |ExplainSuffix|
    ensures prompt[|ExplainPrefix|..|prompt| - |ExplainSuffix|] == topic
    ensures prompt[|prompt| - |ExplainSuffix|..] == ExplainSuffix
  {
    ExplainPrefix + topic + ExplainSuffix
  }

  /** Different topics give different prompts. */
  lemma ExplainTopicInjective(a: string, b: string)
    requires ExplainTopic(a) == ExplainTopic(b)
    ensures a == b
  {
    assert |ExplainTopic(a)| == |ExplainTopic(b)|;
  }

  const SummarizePrefix: string := "Summarize the following text in "
  const SummarizeMiddle: string := " sentences or less:\n\n"

  /** `summarize_text`. */
  function SummarizeText(text: string, maxSentences: int): (prompt: string)
    ensures SummarizePrefix <= prompt
    ensures |prompt| == |SummarizePrefix| + |IntToString(maxSentences)| + |SummarizeMiddle| + |text|
    ensures prompt[|SummarizePrefix|..|SummarizePrefix| + |IntToString(maxSentences)|] == IntToString(maxSentences)
    ensures |prompt| >= |text| + 2 && prompt[|prompt| - |text| - 2..] == "\n\n" + text
  {
    var number := IntToString(maxSentences);
    var prompt := SummarizePrefix + number + SummarizeMiddle + text;
    assert prompt == (SummarizePrefix + number) + (SummarizeMiddle + text);
    assert prompt[|SummarizePrefix|..|SummarizePrefix| + |number|] == number;
    assert SummarizeMiddle == " sentences or less:" + "\n\n";
    assert prompt[|prompt| - |text| - 2..] == "\n\n" + text;
    prompt
  }

  /** A printed integer has no whitespace in it. */
  lemma IntToStringNoSpace(i: int)
    ensures NoSpace(IntToString(i))
  {
    var s := IntToString(i);
    if i >= 0 {
      assert AllDigits(s);
    } else {
      assert s == "-" + NatToString(-i);
      forall k | 0 <= k < |s| ensures !IsSpace(s[k]) {
        if k > 0 { assert s[k] == NatToString(-i)[k - 1]; }
      }
    }
  }

  /** Two strings of the form `prefix + word + rest`, with words free of
      whitespace and rests starting with a space, agree on the word. */
  lemma SameWordBeforeSpace(p: string, w1: string, r1: string, w2: string, r2: string)
    requires NoSpace(w1) && NoSpace(w2) && r1 != [] && r2 != [] && r1[0] == ' ' && r2[0] == ' '
    requires p + w1 + r1 == p + w2 + r2
    ensures w1 == w2 && r1 == r2
  {
    var s := p + w1 + r1;
    assert s[|p|..] == w1 + r1 == w2 + r2;
    WordLengthOfWord(w1, r1);
    WordLengthOfWord(w2, r2);
    assert w1 == s[|p|..|p| + |w1|] == w2;
    assert r1 == s[|p| + |w1|..] == r2;
  }

  /** A prompt is the prefix, the printed limit, and a rest that starts with a space. */
  lemma SummarizeTextParts(t: string, n: int)
    ensures SummarizeText(t, n) == SummarizePrefix + IntToString(n) + (SummarizeMiddle + t)
    ensures (SummarizeMiddle + t)[0] == ' ' && (SummarizeMiddle + t)[|SummarizeMiddle|..] == t
    ensures NoSpace(IntToString(n))
  {
    IntToStringNoSpace(n);
  }

  /** The prompt determines both the text and the sentence limit it was made from. */
  lemma SummarizeTextInjective(t1: string, n1: int, t2: string, n2: int)
    requires SummarizeText(t1, n1) == SummarizeText(t2, n2)
    ensures t1 == t2 && n1 == n2
  {
    SummarizeTextParts(t1, n1);
    SummarizeTextParts(t2, n2);
    SameWordBeforeSpace(SummarizePrefix, IntToString(n1), SummarizeMiddle + t1, IntToString(n2), SummarizeMiddle + t2);
    IntToStringInjective(n1, n2);
  }
}
