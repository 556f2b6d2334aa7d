/** `extractJSONBlock`: the first balanced brace block of a model reply. */
module JsonExtract {
  import opened Common
  import opened JsonText

  /** What the scan has to find: the block from the first opening brace to where its depth returns to zero. */
  function Block(valid: string -> bool, input: string): Option<string> {
    var start := IndexOf(input, '{');
    match FirstClose(Outside(0), input[start..])
    case None => None
    case Some(k) =>
      var fragment := TrimSpace(input[start..start + k + 1]);
      if valid(fragment) then Some(fragment) else None
  }

  /** The branches of the loop body: they change the three variables as `Feed` does. */
  method Advance(depth: int, inString: bool, escape: bool, ch: char)
    returns (depth': int, inString': bool, escape': bool)
    ensures Scan(depth', inString', escape') == Feed(Scan(depth, inString, escape), ch)
  {
    depth', inString', escape' := depth, inString, escape;
    if inString {
      if escape {
        escape' := false;
      } else if ch == '\\' {
        escape' := true;
      } else if ch == '"' {
        inString' := false;
      }
      return;
    }
    match ch {
      case '"' => inString' := true;
      case '{' => depth' := depth + 1;
      case '}' => depth' := depth - 1;
      case _ =>
    }
  }

  /** The scanning loop: the offset, from `start`, of the brace that closes the block. */
  method ScanBlock(input: string, start: nat) returns (close: Option<nat>)
    requires start <= |input|
    ensures close == FirstClose(Outside(0), input[start..])
  {
    var depth, inString, escape := 0, false, false;
    var i := start;
    while i < |input|
      invariant start <= i <= |input|
      invariant FirstClose(Outside(0), input[start..]) ==
                Later(i - start, FirstClose(Scan(depth, inString, escape), input[i..]))
    {
      CloseFrom(Scan(depth, inString, escape), input, i);
      if !inString && input[i] == '}' && depth - 1 == 0 {
        return Some(i - start);
      }
      depth, inString, escape := Advance(depth, inString, escape, input[i]);
      i := i + 1;
    }
    close := None;
  }

  method ExtractJSONBlock(valid: string -> bool, input: string) returns (r: Option<string>)
    ensures r == Block(valid, input)
  {
    var start := IndexOf(input, '{');
    if start == |input| {
      return None;
    }
    var close := ScanBlock(input, start);
    if close.None? {
      return None;
    }
    var fragment := TrimSpace(input[start..start + close.value + 1]);
    r := if valid(fragment) then Some(fragment) else None;
  }

  /** One round of the scan, by position. */
  lemma CloseFrom(s: Scan, input: string, i: nat)
    requires i < |input|
    ensures FirstClose(s, input[i..]) ==
            if Closes(s, input[i]) then Some(0) else Later(1, FirstClose(Feed(s, input[i]), input[i + 1..]))
  {
    assert input[i..][1..] == input[i + 1..];
  }

  lemma BracedNeedsNoTrim(s: string)
    requires s != "" && s[0] == '{' && s[|s| - 1] == '}'
    ensures TrimSpace(s) == s
  {
  }

  /** A JSON object written after brace-free prose, and before anything at all, is extracted exactly. */
  lemma {:induction false} PrintedObjectIsExtracted(valid: string -> bool, prefix: string, j: Json, suffix: string)
    requires '{' !in prefix && j.Obj? && JsonOk(j) && valid(Text(j))
    ensures Block(valid, prefix + Text(j) + suffix) == Some(Text(j))
  {
    var text := Text(j);
    var input := prefix + text + suffix;
    assert input == prefix + (text + suffix);
    IndexOfAfter(prefix, text + suffix, '{');
    assert input[|prefix|..] == text + suffix;
    ObjectClosesAtItsEnd(j, suffix);
    assert input[|prefix|..|prefix| + |text|] == text;
    BracedNeedsNoTrim(text);
  }
}
