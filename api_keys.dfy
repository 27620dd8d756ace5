/**
 * App.tsx: the API keys are the lines of the key text area that are not
 * blank. The lines themselves are kept as written, untrimmed.
 */
module ApiKeys {
  import opened Strings
  import opened Seqs

  predicate IsKeyLine(line: string) {
    Trim(line) != ""
  }

  /** `apiKeysText.split('\n').filter(k => k.trim())`. */
  function ParseApiKeys(text: string): (keys: seq<string>)
    ensures forall i :: 0 <= i < |keys| ==> !IsBlank(keys[i]) && '\n' !in keys[i]
    ensures forall i :: 0 <= i < |keys| ==> keys[i] in Split(text, '\n')
  {
    var lines := Split(text, '\n');
    forall s: string ensures Trim(s) != "" <==> !IsBlank(s) {
      TrimNonEmptyIffNotBlank(s);
    }
    Filter(lines, IsKeyLine)
  }

  /** The keys are the non-blank lines, every one of them, in their order. */
  lemma KeysAreNonBlankLines(text: string)
    ensures IsSubsequence(ParseApiKeys(text), Split(text, '\n'))
    ensures forall i :: 0 <= i < |Split(text, '\n')| && !IsBlank(Split(text, '\n')[i]) ==>
      Split(text, '\n')[i] in ParseApiKeys(text)
  {
    var lines := Split(text, '\n');
    FilterIsSubsequence(lines, IsKeyLine);
    forall i | 0 <= i < |lines| && !IsBlank(lines[i])
      ensures lines[i] in ParseApiKeys(text)
    {
      TrimNonEmptyIffNotBlank(lines[i]);
    }
  }

  /** Writing non-blank keys one per line and parsing the text gives the keys back. */
  lemma ParseJoinedKeys(keys: seq<string>)
    requires |keys| > 0
    requires forall i :: 0 <= i < |keys| ==> '\n' !in keys[i] && !IsBlank(keys[i])
    ensures ParseApiKeys(Join(keys, "\n")) == keys
  {
    JoinSplit(keys, '\n');
    assert Split(Join(keys, "\n"), '\n') == keys;
    forall i | 0 <= i < |keys| ensures IsKeyLine(keys[i]) {
      TrimNonEmptyIffNotBlank(keys[i]);
    }
    FilterKeepsAllIff(keys, IsKeyLine);
  }

  /** An empty or blank text gives no keys. */
  lemma BlankTextHasNoKeys(text: string)
    requires IsBlank(text)
    ensures ParseApiKeys(text) == []
  {
    var lines := Split(text, '\n');
    SplitJoin(text, '\n');
    forall j | 0 <= j < |lines| ensures !IsKeyLine(lines[j]) {
      JoinPieceBlank(lines, j, text);
      TrimEmptyIffBlank(lines[j]);
    }
    FilterNonePass(lines, IsKeyLine);
  }

  /** A line of a blank text is blank itself. */
  lemma {:induction false} JoinPieceBlank(lines: seq<string>, j: nat, text: string)
    requires j < |lines| && Join(lines, "\n") == text && IsBlank(text)
    ensures IsBlank(lines[j])
    decreases |lines|
  {
    if |lines| > 1 {
      assert text == lines[0] + "\n" + Join(lines[1..], "\n");
      if j == 0 {
        assert forall k :: 0 <= k < |lines[0]| ==> lines[0][k] == text[k];
      } else {
        var rest := Join(lines[1..], "\n");
        assert forall k :: 0 <= k < |rest| ==> rest[k] == text[|lines[0]| + 1 + k];
        JoinPieceBlank(lines[1..], j - 1, rest);
      }
    }
  }
}
