/** `parse_response`: picks a JSON candidate out of the model's free-text reply in
    four ways, in order, and returns what `json.loads` makes of the first candidate
    it accepts. `json.loads` itself is the parameter `loads`: `None` stands for a
    `JSONDecodeError`. */
module ReplyParser {
  import opened Wrappers
  import opened JsonValue
  import opened Text

  const Fence: string := "```"
  const JsonFence: string := "```json"

  /** `p.startswith('{') and p.endswith('}')` */
  predicate Braced(p: string)
  {
    p != [] && p[0] == '{' && p[|p| - 1] == '}'
  }

  /** Try 2: the text between the first "```json" and the next "```", stripped;
      `None` when there is no tag or nothing follows it before a closing fence. */
  function TaggedBlock(clean: string): Option<string>
  {
    var open := FindFrom(clean, JsonFence, 0);
    if open == -1 then None
    else
      var start := open + |JsonFence|;
      var end := FindFrom(clean, Fence, start);
      if end > start then Some(Strip(clean[start..end])) else None
  }

  /** The first part, once stripped, that is shaped like `{...}`. */
  function FirstBraced(parts: seq<string>): (r: Option<string>)
    ensures r.Some? ==> Braced(r.value)
    ensures r.Some? <==> exists k :: 0 <= k < |parts| && Braced(Strip(parts[k]))
    ensures r.Some? ==> exists k :: 0 <= k < |parts| && r.value == Strip(parts[k]) &&
                                    forall i :: 0 <= i < k ==> !Braced(Strip(parts[i]))
  {
    if parts == [] then None
    else if Braced(Strip(parts[0])) then Some(Strip(parts[0]))
    else
      var r := FirstBraced(parts[1..]);
      assert forall k :: 1 <= k < |parts| ==> parts[k] == parts[1..][k - 1];
      if r.Some? then
        ghost var k :| 0 <= k < |parts[1..]| && r.value == Strip(parts[1..][k]) &&
                       forall i :: 0 <= i < k ==> !Braced(Strip(parts[1..][i]));
        assert forall i :: 0 <= i < k + 1 ==> !Braced(Strip(parts[i])) by {
          forall i | 0 <= i < k + 1 ensures !Braced(Strip(parts[i])) {
            if i > 0 { assert parts[i] == parts[1..][i - 1]; }
          }
        }
        r
      else
        r
  }

  /** Try 3: the first "```"-separated part shaped like `{...}`. Only that part is
      ever handed to `json.loads`: the `try` encloses the whole loop, so a failure on
      it ends this strategy. */
  function FencedObject(clean: string): Option<string>
  {
    if FindFrom(clean, Fence, 0) == -1 then None else FirstBraced(Split(clean, Fence))
  }

  /** Try 4: from the first `{` to the last `}`, both included. */
  function OuterBraces(clean: string): (r: Option<string>)
    ensures r.Some? ==> Braced(r.value)
  {
    var first := FindFrom(clean, "{", 0);
    var last := RFindChar(clean, '}');
    if first != -1 && last > first then
      assert IsAt(clean, "{", first);
      assert clean[first..first + 1] == "{";
      Some(clean[first..last + 1])
    else None
  }

  /** `json.loads(candidate)` for a strategy that produced a candidate. */
  function Attempt(candidate: Option<string>, loads: string -> Option<Json>): Option<Json>
  {
    if candidate.Some? then loads(candidate.value) else None
  }

  /** Reference definition: the first candidate that loads wins. */
  function FirstSuccess(candidates: seq<Option<string>>, loads: string -> Option<Json>): (r: Option<Json>)
    ensures r.Some? ==> exists k :: 0 <= k < |candidates| && Attempt(candidates[k], loads) == r &&
                                    forall i :: 0 <= i < k ==> Attempt(candidates[i], loads).None?
    ensures r.None? ==> forall k :: 0 <= k < |candidates| ==> Attempt(candidates[k], loads).None?
  {
    if candidates == [] then None
    else if Attempt(candidates[0], loads).Some? then Attempt(candidates[0], loads)
    else
      var r := FirstSuccess(candidates[1..], loads);
      assert forall k :: 1 <= k < |candidates| ==> candidates[k] == candidates[1..][k - 1];
      if r.Some? then
        ghost var k :| 0 <= k < |candidates[1..]| && Attempt(candidates[1..][k], loads) == r &&
                       forall i :: 0 <= i < k ==> Attempt(candidates[1..][i], loads).None?;
        assert forall i :: 0 <= i < k + 1 ==> Attempt(candidates[i], loads).None? by {
          forall i | 0 <= i < k + 1 ensures Attempt(candidates[i], loads).None? {
            if i > 0 { assert candidates[i] == candidates[1..][i - 1]; }
          }
        }
        r
      else
        r
  }

  lemma FirstSuccessCons(c: Option<string>, rest: seq<Option<string>>, loads: string -> Option<Json>)
    ensures FirstSuccess([c] + rest, loads) ==
            if Attempt(c, loads).Some? then Attempt(c, loads) else FirstSuccess(rest, loads)
  {
    assert ([c] + rest)[0] == c && ([c] + rest)[1..] == rest;
  }

  /** The four candidates, in the order they are tried. */
  function Candidates(clean: string): seq<Option<string>>
  {
    [Some(clean), TaggedBlock(clean), FencedObject(clean), OuterBraces(clean)]
  }

  /** The reference order written out for the four candidates. */
  lemma CandidatesInOrder(clean: string, loads: string -> Option<Json>)
    ensures FirstSuccess(Candidates(clean), loads) ==
            var whole := loads(clean);
            if whole.Some? then whole
            else
              var tagged := Attempt(TaggedBlock(clean), loads);
              if tagged.Some? then tagged
              else
                var fenced := Attempt(FencedObject(clean), loads);
                if fenced.Some? then fenced else Attempt(OuterBraces(clean), loads)
  {
    var cs := Candidates(clean);
    FirstSuccessCons(cs[0], cs[1..], loads);
    FirstSuccessCons(cs[1], cs[2..], loads);
    FirstSuccessCons(cs[2], cs[3..], loads);
    FirstSuccessCons(cs[3], [], loads);
    assert cs == [cs[0]] + cs[1..] && cs[1..] == [cs[1]] + cs[2..];
    assert cs[2..] == [cs[2]] + cs[3..] && cs[3..] == [cs[3]] + [];
  }

  /** `parse_response(assistant_message)`: `None` for an empty reply, otherwise
      the first of the four tries that loads. */
  function ParseResponse(message: string, loads: string -> Option<Json>): (r: Option<Json>)
    ensures message == [] ==> r == None
    ensures message != [] ==> r == FirstSuccess(Candidates(Strip(message)), loads)
  {
    if message == [] then None
    else
      var clean := Strip(message);
      CandidatesInOrder(clean, loads);
      assert FindFrom(clean, JsonFence, 0) == -1 ==> TaggedBlock(clean) == None;
      assert FindFrom(clean, Fence, 0) == -1 ==> FencedObject(clean) == None;
      var whole := loads(clean);
      if whole.Some? then whole
      else
        var tagged := if FindFrom(clean, JsonFence, 0) != -1 then Attempt(TaggedBlock(clean), loads) else None;
        if tagged.Some? then tagged
        else
          var fenced := if FindFrom(clean, Fence, 0) != -1 then Attempt(FencedObject(clean), loads) else None;
          if fenced.Some? then fenced
          else Attempt(OuterBraces(clean), loads)
  }

  /** A reply that is itself JSON is returned as decoded (the first try). */
  lemma WholeReplyWins(message: string, loads: string -> Option<Json>)
    requires message != [] && loads(Strip(message)).Some?
    ensures ParseResponse(message, loads) == loads(Strip(message))
  {
  }

  /** A "```" anywhere is needed for a "```json" tag. */
  lemma NoFenceNoTag(s: string)
    requires FindFrom(s, Fence, 0) == -1
    ensures FindFrom(s, JsonFence, 0) == -1
  {
    forall j: int ensures !IsAt(s, JsonFence, j) {
      if 0 <= j && j + |JsonFence| <= |s| {
        assert !IsAt(s, Fence, j);
        assert s[j..j + |JsonFence|][..|Fence|] == s[j..j + |Fence|];
        assert JsonFence[..|Fence|] == Fence;
      }
    }
  }

  lemma TagAfter(pre: string, body: string, post: string)
    requires FindFrom(pre + JsonFence, JsonFence, 0) == |pre|
    ensures FindFrom(pre + JsonFence + body + Fence + post, JsonFence, 0) == |pre|
  {
    FindFromShift([], pre + JsonFence, body + Fence + post, JsonFence, 0);
    assert [] + (pre + JsonFence) + (body + Fence + post) == pre + JsonFence + body + Fence + post;
  }

  lemma CloseAfter(pre: string, body: string, post: string)
    requires FindFrom(body + Fence, Fence, 0) == |body|
    ensures FindFrom(pre + JsonFence + body + Fence + post, Fence, |pre| + |JsonFence|) ==
            |pre| + |JsonFence| + |body|
  {
    FindFromShift(pre + JsonFence, body + Fence, post, Fence, 0);
    assert (pre + JsonFence) + (body + Fence) + post == pre + JsonFence + body + Fence + post;
  }

  lemma BodySlice(pre: string, body: string, post: string)
    ensures (pre + JsonFence + body + Fence + post)[|pre| + |JsonFence|..|pre| + |JsonFence| + |body|] == body
  {
  }

  lemma TaggedBlockAt(s: string, open: nat, end: int)
    requires FindFrom(s, JsonFence, 0) == open
    requires FindFrom(s, Fence, open + |JsonFence|) == end && end > open + |JsonFence|
    ensures TaggedBlock(s) == Some(Strip(s[open + |JsonFence|..end]))
  {
  }

  /** Try 2 finds the body of the first "```json" block, up to the first "```"
      after the tag. */
  lemma TaggedBlockOf(pre: string, body: string, post: string)
    requires FindFrom(pre + JsonFence, JsonFence, 0) == |pre|
    requires body != [] && FindFrom(body + Fence, Fence, 0) == |body|
    ensures TaggedBlock(pre + JsonFence + body + Fence + post) == Some(Strip(body))
  {
    var s := pre + JsonFence + body + Fence + post;
    var start := |pre| + |JsonFence|;
    var end := start + |body|;
    assert TaggedBlock(s) == Some(Strip(s[start..end])) by {
      TagAfter(pre, body, post);
      CloseAfter(pre, body, post);
      TaggedBlockAt(s, |pre|, end);
    }
    assert s[start..end] == body by {
      BodySlice(pre, body, post);
    }
  }

  /** A reply whose first "```json" block is closed by the next "```" and that
      does not load as a whole parses as the block's body parses on its own. */
  lemma TaggedReplyParses(m: string, pre: string, body: string, post: string, loads: string -> Option<Json>)
    requires Strip(m) == pre + JsonFence + body + Fence + post
    requires FindFrom(pre + JsonFence, JsonFence, 0) == |pre|
    requires body != [] && FindFrom(body + Fence, Fence, 0) == |body|
    requires loads(Strip(m)).None?
    requires loads(Strip(body)).Some?
    ensures ParseResponse(m, loads) == loads(Strip(body))
  {
    TaggedBlockOf(pre, body, post);
    CandidatesInOrder(Strip(m), loads);
  }

  /** Try 3 hands `json.loads` the first braced part and no other: when that part
      does not load, the strategy yields nothing, whatever later parts hold. */
  lemma FirstBracedPartOnly(clean: string, k: nat, loads: string -> Option<Json>)
    requires FindFrom(clean, Fence, 0) != -1
    requires k < |Split(clean, Fence)| && Braced(Strip(Split(clean, Fence)[k]))
    requires forall i :: 0 <= i < k ==> !Braced(Strip(Split(clean, Fence)[i]))
    ensures FencedObject(clean) == Some(Strip(Split(clean, Fence)[k]))
    ensures Attempt(FencedObject(clean), loads) == loads(Strip(Split(clean, Fence)[k]))
  {
    var parts := Split(clean, Fence);
    var r := FirstBraced(parts);
    assert r.Some?;
    var k' :| 0 <= k' < |parts| && r.value == Strip(parts[k']) &&
              forall i :: 0 <= i < k' ==> !Braced(Strip(parts[i]));
    assert k' == k;
  }

  /** Try 4 finds an object set in prose that has no `{` before it and no `}`
      after it. */
  lemma OuterBracesOf(pre: string, obj: string, post: string)
    requires '{' !in pre && '}' !in post && Braced(obj)
    ensures OuterBraces(pre + obj + post) == Some(obj)
  {
    var s := pre + obj + post;
    assert s[|pre|..|pre| + 1] == "{";
    forall j | 0 <= j < |pre| ensures s[j] != "{"[0] {
      assert s[j] == pre[j];
    }
    FindFromFirstChar(s, "{", 0, |pre|);
    var last := |pre| + |obj| - 1;
    assert s[last] == '}';
    forall j | last < j < |s| ensures s[j] != '}' {
      assert s[j] == post[j - |pre| - |obj|];
    }
    assert RFindChar(s, '}') == last;
    assert s[|pre|..last + 1] == obj;
  }

  /** A reply with no "```" whose only object sits between the first `{` and
      the last `}` parses as that object does. */
  lemma ProseWrappedObjectParses(m: string, pre: string, obj: string, post: string, loads: string -> Option<Json>)
    requires Strip(m) == pre + obj + post
    requires '{' !in pre && '}' !in post && Braced(obj)
    requires FindFrom(Strip(m), Fence, 0) == -1
    requires loads(Strip(m)).None?
    ensures ParseResponse(m, loads) == loads(obj)
  {
    OuterBracesOf(pre, obj, post);
    NoFenceNoTag(Strip(m));
    CandidatesInOrder(Strip(m), loads);
  }

  /** In `a + "```" + rest` with `a` braced and free of "```", the first fence is
      the one right after `a`. */
  lemma FirstFenceAfterBraced(a: string, rest: string)
    requires Braced(a) && FindFrom(a, Fence, 0) == -1
    ensures FindFrom(a + Fence + rest, Fence, 0) == |a|
  {
    var s := a + Fence + rest;
    assert IsAt(s, Fence, |a|) by {
      assert s[|a|..|a| + 3] == Fence;
    }
    forall j | 0 <= j < |a| ensures !IsAt(s, Fence, j) {
      if j + 3 <= |a| {
        assert s[j..j + 3] == a[j..j + 3];
        assert !IsAt(a, Fence, j);
      } else {
        assert s[j..j + 3][|a| - 1 - j] == a[|a| - 1] == '}';
      }
    }
    FindFromAt(s, Fence, 0, |a|);
  }

  lemma SplitAfterBraced(a: string, rest: string)
    requires Braced(a) && FindFrom(a, Fence, 0) == -1
    ensures Split(a + Fence + rest, Fence) == [a] + Split(rest, Fence)
  {
    var s := a + Fence + rest;
    FirstFenceAfterBraced(a, rest);
    assert s[..|a|] == a && s[|a| + 3..] == rest;
  }

  /** A window of `s` that covers a character other than a backtick is no fence. */
  lemma NoFenceOver(s: string, i: int, k: int)
    requires 0 <= i <= k < i + 3 <= |s| && s[k] != '`'
    ensures !IsAt(s, Fence, i)
  {
    assert s[i..i + 3][k - i] == s[k];
  }

  /** In "```a```b```" with braced, fence-free `a` and `b`, "```" occurs only
      at the three separators. */
  lemma OnlySeparatorFences(a: string, b: string, i: int)
    requires Braced(a) && Braced(b)
    requires FindFrom(a, Fence, 0) == -1 && FindFrom(b, Fence, 0) == -1
    requires i != 0 && i != |a| + 3 && i != |a| + |b| + 6
    ensures !IsAt(Fence + a + Fence + b + Fence, Fence, i)
  {
    if 3 <= i && i + 3 <= |a| + 3 {
      NotAtWhenAbsent(a, Fence, i - 3);
      NotAtInSuffix(Fence, a, Fence, i);
      NotAtInPrefix(Fence + a, Fence, Fence, i);
      NotAtInPrefix(Fence + a + Fence, b, Fence, i);
      NotAtInPrefix(Fence + a + Fence + b, Fence, Fence, i);
    } else if |a| + 6 <= i && i + 3 <= |a| + |b| + 6 {
      NotAtWhenAbsent(b, Fence, i - |a| - 6);
      NotAtInSuffix(Fence + a + Fence, b, Fence, i);
      NotAtInPrefix(Fence + a + Fence + b, Fence, Fence, i);
    } else if 0 <= i && i + 3 <= |a| + |b| + 9 {
      BoundaryNotFence(a, b, i);
    }
  }

  /** A window of "```a```b```" that straddles an edge of `a` or `b` covers one
      of their braces. */
  lemma BoundaryNotFence(a: string, b: string, i: int)
    requires Braced(a) && Braced(b)
    requires i != 0 && i != |a| + 3 && i != |a| + |b| + 6
    requires 0 <= i && i + 3 <= |a| + |b| + 9
    requires !(3 <= i && i + 3 <= |a| + 3) && !(|a| + 6 <= i && i + 3 <= |a| + |b| + 6)
    ensures !IsAt(Fence + a + Fence + b + Fence, Fence, i)
  {
    var m := Fence + a + Fence + b + Fence;
    if i < 3 {
      assert m[3] == a[0];
      NoFenceOver(m, i, 3);
    } else if i < |a| + 3 {
      assert m[|a| + 2] == a[|a| - 1];
      NoFenceOver(m, i, |a| + 2);
    } else if i < |a| + 6 {
      assert m[|a| + 6] == b[0];
      NoFenceOver(m, i, |a| + 6);
    } else {
      assert m[|a| + |b| + 5] == b[|b| - 1];
      NoFenceOver(m, i, |a| + |b| + 5);
    }
  }

  lemma FencePairUntagged(a: string, b: string)
    requires Braced(a) && Braced(b)
    requires FindFrom(a, Fence, 0) == -1 && FindFrom(b, Fence, 0) == -1
    ensures FindFrom(Fence + a + Fence + b + Fence, JsonFence, 0) == -1
  {
    var m := Fence + a + Fence + b + Fence;
    forall i: nat ensures !IsAt(m, JsonFence, i) {
      if i + 7 <= |m| {
        if i == 0 {
          assert m[i..i + 7][3] == m[3] == a[0];
        } else if i == |a| + 3 {
          assert m[i..i + 7][3] == m[|a| + 6] == b[0];
        } else if i != |a| + |b| + 6 {
          OnlySeparatorFences(a, b, i);
          assert m[i..i + 7][..3] == m[i..i + 3];
        }
      }
    }
  }

  /** The parts of "```a```b```" are "", `a`, `b` and "". */
  lemma FencePairParts(a: string, b: string)
    requires Braced(a) && Braced(b)
    requires FindFrom(a, Fence, 0) == -1 && FindFrom(b, Fence, 0) == -1
    ensures Split(Fence + a + Fence + b + Fence, Fence) == [[], a, b, []]
  {
    var empty: string := [];
    var tail2 := b + Fence + empty;
    var tail1 := a + Fence + tail2;
    var m := Fence + a + Fence + b + Fence;
    assert m == Fence + tail1;
    var parts1 := Split(tail1, Fence);
    assert parts1 == [a, b, empty] by {
      SplitAfterBraced(a, tail2);
      SplitAfterBraced(b, empty);
      SplitEmpty(Fence);
    }
    SplitLeadingSep(Fence, tail1);
  }

  lemma FencePairFenced(a: string, b: string)
    requires Braced(a) && Braced(b)
    requires FindFrom(a, Fence, 0) == -1 && FindFrom(b, Fence, 0) == -1
    ensures FencedObject(Fence + a + Fence + b + Fence) == Some(a)
  {
    var m := Fence + a + Fence + b + Fence;
    FencePairParts(a, b);
    assert Strip(a) == a;
    assert Strip([]) == [];
    assert IsAt(m, Fence, 0);
    FirstBracedPartOnly(m, 1, (_: string) => None);
  }

  lemma FencePairOuter(a: string, b: string)
    requires Braced(a) && Braced(b)
    ensures OuterBraces(Fence + a + Fence + b + Fence) == Some(a + Fence + b)
  {
    assert Braced(a + Fence + b);
    OuterBracesOf(Fence, a + Fence + b, Fence);
    assert Fence + (a + Fence + b) + Fence == Fence + a + Fence + b + Fence;
  }

  /** The quirk of try 3: in "```{a}```{b}```", when `{a}` does not load, the
      reply fails to parse even if `{b}` would load, because try 3 stops at the
      first braced part and try 4 takes the span from the first `{` to the last `}`.
      Only "```" is kept out of the two objects, so that they stay the parts. */
  lemma LaterFencedObjectIgnored(a: string, b: string, loads: string -> Option<Json>)
    requires Braced(a) && Braced(b)
    requires FindFrom(a, Fence, 0) == -1 && FindFrom(b, Fence, 0) == -1
    requires loads(Fence + a + Fence + b + Fence).None?
    requires loads(a).None?
    requires loads(a + Fence + b).None?
    ensures ParseResponse(Fence + a + Fence + b + Fence, loads) == None
  {
    var m := Fence + a + Fence + b + Fence;
    assert Strip(m) == m by {
      assert m[0] == '`' && m[|m| - 1] == '`';
    }
    FencePairUntagged(a, b);
    FencePairFenced(a, b);
    FencePairOuter(a, b);
    CandidatesInOrder(m, loads);
  }
}
