/**
 * Token substitution: every occurrence of ANCHOR word ANCHOR in a value (the
 * regular expression anchor + `\w+` + anchor, searched left to right without
 * overlap) is replaced by the word's value in the first registered map that
 * defines it; literal text between tokens is copied unchanged, replacement text
 * is never searched again, and a token that no map defines is an error.
 *
 * The regular expression search is modelled by `TokenAt`/`FindFrom`. They agree
 * with Java's `Matcher.find` for the pattern `A\w+A` whenever the anchor `A` is
 * not itself a word character (the two anchors used are `%` and `$`): the
 * greedy `\w+` can then only stop at the first non-word character, so a match
 * at `i` exists exactly when that character is the anchor.
 */
module TokenSubstitution {
  import opened Common

  /** Java's `\w` (without UNICODE_CHARACTER_CLASS): an ASCII letter, digit or underscore. */
  predicate IsWordChar(c: char)
  {
    ('a' <= c <= 'z') || ('A' <= c <= 'Z') || ('0' <= c <= '9') || c == '_'
  }

  /** The end (exclusive) of the run of word characters that starts at `i`. */
  function WordEnd(s: string, i: nat): (j: nat)
    requires i <= |s|
    ensures i <= j <= |s|
    ensures forall k | i <= k < j :: IsWordChar(s[k])
    ensures j == |s| || !IsWordChar(s[j])
    decreases |s| - i
  {
    if i < |s| && IsWordChar(s[i]) then WordEnd(s, i + 1) else i
  }

  /** A token occupies `s[i..e]`: an anchor, one or more word characters, an anchor. */
  ghost predicate IsToken(s: string, i: nat, e: nat, anchor: char)
  {
    i + 3 <= e <= |s| && s[i] == anchor && s[e - 1] == anchor
    && forall k | i < k < e - 1 :: IsWordChar(s[k])
  }

  /** The end of the match that starts at `i`, if `A\w+A` matches there. */
  function TokenAt(s: string, i: nat, anchor: char): (r: Option<nat>)
    requires i <= |s|
    ensures r.Some? ==> IsToken(s, i, r.value, anchor)
  {
    if i < |s| && s[i] == anchor then
      var j := WordEnd(s, i + 1);
      if j > i + 1 && j < |s| && s[j] == anchor then Some(j + 1) else None
    else None
  }

  /** The run of word characters from `p` ends at the first character that is not one. */
  lemma {:induction false} WordEndAt(s: string, p: nat, q: nat)
    requires p <= q < |s| && !IsWordChar(s[q])
    requires forall k | p <= k < q :: IsWordChar(s[k])
    ensures WordEnd(s, p) == q
    decreases q - p
  {
    if p < q {
      WordEndAt(s, p + 1, q);
    }
  }

  /** With an anchor that is not a word character, every token is the match found at its start. */
  lemma TokenFound(s: string, i: nat, e: nat, anchor: char)
    requires !IsWordChar(anchor) && IsToken(s, i, e, anchor)
    ensures TokenAt(s, i, anchor) == Some(e)
  {
    WordEndAt(s, i + 1, e - 1);
  }

  /** With such an anchor, no match is found at `i` exactly when no token starts there. */
  lemma TokenAtComplete(s: string, i: nat, anchor: char)
    requires i <= |s| && !IsWordChar(anchor)
    ensures TokenAt(s, i, anchor).None? <==> forall e :: !IsToken(s, i, e, anchor)
  {
    if TokenAt(s, i, anchor).None? {
      forall e
        ensures !IsToken(s, i, e, anchor)
      {
        if IsToken(s, i, e, anchor) {
          TokenFound(s, i, e, anchor);
        }
      }
    }
  }

  /** The word inside a token, that is the token with its two anchors removed. */
  function TokenId(s: string, i: nat, e: nat): string
    requires i + 2 <= e <= |s|
  {
    s[i + 1..e - 1]
  }

  /** `Matcher.find()` from position `p`: the leftmost match starting at or after `p`. */
  function FindFrom(s: string, p: nat, anchor: char): (r: Option<(nat, nat)>)
    requires p <= |s|
    ensures r.Some? ==> p <= r.value.0 <= |s| && TokenAt(s, r.value.0, anchor) == Some(r.value.1)
    ensures r.Some? ==> forall k | p <= k < r.value.0 :: TokenAt(s, k, anchor).None?
    ensures r.None? ==> forall k | p <= k <= |s| :: TokenAt(s, k, anchor).None?
    decreases |s| - p
  {
    match TokenAt(s, p, anchor)
    case Some(e) => Some((p, e))
    case None => if p == |s| then None else FindFrom(s, p + 1, anchor)
  }

  /** A registered map that is non-null and has a value for `id`. */
  predicate Defines(m: Option<map<string, string>>, id: string)
  {
    m.Some? && id in m.value
  }

  /** The replacement for `id`: its value in the first registered map that defines it. */
  function Lookup(maps: seq<Option<map<string, string>>>, id: string): (r: Option<string>)
    ensures r.None? <==> forall i | 0 <= i < |maps| :: !Defines(maps[i], id)
    ensures r.Some? ==> exists i | 0 <= i < |maps| :: FirstDefiner(maps, id, i) && r.value == maps[i].value[id]
  {
    if maps == [] then None
    else if Defines(maps[0], id) then
      assert FirstDefiner(maps, id, 0);
      Some(maps[0].value[id])
    else
      var r := Lookup(maps[1..], id);
      assert r.Some? ==> exists i | 0 <= i < |maps| :: FirstDefiner(maps, id, i) && r.value == maps[i].value[id] by {
        if r.Some? {
          var i :| 0 <= i < |maps[1..]| && FirstDefiner(maps[1..], id, i) && r.value == maps[1..][i].value[id];
          assert FirstDefiner(maps, id, i + 1);
        }
      }
      r
  }

  /** `maps[i]` defines `id` and no map registered before it does. */
  predicate FirstDefiner(maps: seq<Option<map<string, string>>>, id: string, i: nat)
  {
    i < |maps| && Defines(maps[i], id) && forall j | 0 <= j < i :: !Defines(maps[j], id)
  }

  /** The message of the `TRException` raised for a token that no map defines. */
  function NotFoundMessage(kind: string, id: string): string
  {
    kind + " [" + id + "] not found"
  }

  /** `pre` prepended to a successful result; errors pass through. */
  function Prepend(pre: string, r: Result<string, string>): Result<string, string>
  {
    match r
    case Ok(rest) => Ok(pre + rest)
    case Err(m) => Err(m)
  }

  /**
   * Reference definition of substitution, one position at a time: at a token
   * the replacement is emitted and scanning resumes after the token; anywhere
   * else the character is copied. The first token (left to right) that no map
   * defines makes the whole result an error.
   */
  function Expand(s: string, i: nat, anchor: char, kind: string, maps: seq<Option<map<string, string>>>): Result<string, string>
    requires i <= |s|
    decreases |s| - i
  {
    if i == |s| then Ok("")
    else
      match TokenAt(s, i, anchor)
      case Some(e) =>
        (match Lookup(maps, TokenId(s, i, e))
         case None => Err(NotFoundMessage(kind, TokenId(s, i, e)))
         case Some(v) => Prepend(v, Expand(s, e, anchor, kind, maps)))
      case None => Prepend([s[i]], Expand(s, i + 1, anchor, kind, maps))
  }

  /** Substitution of a whole value. */
  function Substituted(s: string, anchor: char, kind: string, maps: seq<Option<map<string, string>>>): Result<string, string>
  {
    Expand(s, 0, anchor, kind, maps)
  }

  /** The matches `Matcher.find()` reports, in order, starting from position `p`. */
  function Matches(s: string, p: nat, anchor: char): (ms: seq<(nat, nat)>)
    requires p <= |s|
    ensures forall t | t in ms :: p <= t.0 <= |s| && TokenAt(s, t.0, anchor) == Some(t.1)
    decreases |s| - p
  {
    match FindFrom(s, p, anchor)
    case None => []
    case Some(t) => [t] + Matches(s, t.1, anchor)
  }

  /** Between `p` and `q` no token starts: `Expand` copies that stretch literally. */
  lemma {:induction false} SkipLiteral(s: string, p: nat, q: nat, anchor: char, kind: string, maps: seq<Option<map<string, string>>>)
    requires p <= q <= |s|
    requires forall k | p <= k < q :: TokenAt(s, k, anchor).None?
    ensures Expand(s, p, anchor, kind, maps) == Prepend(s[p..q], Expand(s, q, anchor, kind, maps))
    decreases q - p
  {
    if p < q {
      SkipLiteral(s, p + 1, q, anchor, kind, maps);
      var rest := Expand(s, q, anchor, kind, maps);
      assert [s[p]] + s[p + 1..q] == s[p..q];
      match rest
      case Ok(x) => assert [s[p]] + (s[p + 1..q] + x) == s[p..q] + x;
      case Err(_) =>
    } else {
      match Expand(s, q, anchor, kind, maps)
      case Ok(x) => assert s[p..q] + x == x;
      case Err(_) =>
    }
  }

  lemma PrependEmpty(r: Result<string, string>)
    ensures Prepend("", r) == r
  {
    match r
    case Ok(x) => assert "" + x == x;
    case Err(_) =>
  }

  lemma PrependPrepend(a: string, b: string, r: Result<string, string>)
    ensures Prepend(a, Prepend(b, r)) == Prepend(a + b, r)
  {
    match r
    case Ok(x) => assert a + (b + x) == (a + b) + x;
    case Err(_) =>
  }

  /** A value with no token in it is returned unchanged, whatever the maps hold. */
  lemma NoTokenUnchanged(s: string, anchor: char, kind: string, maps: seq<Option<map<string, string>>>)
    requires forall k | 0 <= k <= |s| :: TokenAt(s, k, anchor).None?
    ensures Substituted(s, anchor, kind, maps) == Ok(s)
  {
    SkipLiteral(s, 0, |s|, anchor, kind, maps);
    assert s[0..|s|] == s;
    assert s + "" == s;
  }

  /**
   * Substitution succeeds exactly when every token the search reports is
   * defined by some map; on failure the message names the first undefined one.
   */
  lemma {:induction false} SucceedsIffAllDefined(s: string, p: nat, anchor: char, kind: string, maps: seq<Option<map<string, string>>>)
    requires p <= |s|
    ensures Expand(s, p, anchor, kind, maps).Ok?
        <==> forall t | t in Matches(s, p, anchor) :: Lookup(maps, TokenId(s, t.0, t.1)).Some?
    ensures Expand(s, p, anchor, kind, maps).Err? ==>
        exists t | t in Matches(s, p, anchor) ::
          Expand(s, p, anchor, kind, maps).error == NotFoundMessage(kind, TokenId(s, t.0, t.1))
          && Lookup(maps, TokenId(s, t.0, t.1)).None?
    decreases |s| - p
  {
    var ms := Matches(s, p, anchor);
    match FindFrom(s, p, anchor)
    case None =>
      SkipLiteral(s, p, |s|, anchor, kind, maps);
    case Some(t) =>
      var (a, e) := t;
      SkipLiteral(s, p, a, anchor, kind, maps);
      assert ms == [t] + Matches(s, e, anchor);
      SucceedsIffAllDefined(s, e, anchor, kind, maps);
      var id := TokenId(s, a, e);
      assert a < |s|;
      if Lookup(maps, id).Some? {
        forall u | u in Matches(s, e, anchor) ensures u in ms { }
      }
  }

  /** A value that is exactly one token becomes that token's replacement, which is not searched again. */
  lemma SingleToken(id: string, anchor: char, kind: string, maps: seq<Option<map<string, string>>>)
    requires |id| > 0 && forall k | 0 <= k < |id| :: IsWordChar(id[k])
    requires !IsWordChar(anchor)
    ensures var s := [anchor] + id + [anchor];
      Substituted(s, anchor, kind, maps)
        == if Lookup(maps, id).Some? then Ok(Lookup(maps, id).value) else Err(NotFoundMessage(kind, id))
  {
    var s := [anchor] + id + [anchor];
    var e := |s|;
    assert forall k | 0 < k < e - 1 :: s[k] == id[k - 1];
    TokenFound(s, 0, e, anchor);
    assert TokenId(s, 0, e) == id;
    assert Expand(s, e, anchor, kind, maps) == Ok("");
    match Lookup(maps, id)
    case Some(v) => assert v + "" == v;
    case None =>
  }

  /** Two adjacent anchors never form a token (the word between them is empty), so `%%` survives literally. */
  lemma DoubleAnchorLiteral(anchor: char, kind: string, maps: seq<Option<map<string, string>>>)
    ensures Substituted([anchor, anchor], anchor, kind, maps) == Ok([anchor, anchor])
  {
    NoTokenUnchanged([anchor, anchor], anchor, kind, maps);
  }

  /** Replacement text is not rescanned: a value that itself looks like a token is emitted verbatim. */
  lemma ReplacementNotRescanned()
    ensures Substituted("%a%", '%', "Argument", [Some(map["a" := "%b%", "b" := "x"])]) == Ok("%b%")
  {
    var maps := [Some(map["a" := "%b%", "b" := "x"])];
    assert Lookup(maps, "a") == Some("%b%");
    SingleToken("a", '%', "Argument", maps);
    assert ['%'] + "a" + ['%'] == "%a%";
  }

  /** Text before and after a token is kept around the replacement. */
  lemma TokenInContext()
    ensures Substituted("x=%v%;", '%', "Argument", [None, Some(map["v" := "1"])]) == Ok("x=1;")
  {
    var s := "x=%v%;";
    var maps := [None, Some(map["v" := "1"])];
    assert |s| == 6 && s[5] == ';' && s[1] == '=' && s[0] == 'x';
    assert TokenAt(s, 2, '%') == Some(5);
    assert TokenId(s, 2, 5) == "v";
    assert Lookup(maps, "v") == Some("1");
    assert Expand(s, 6, '%', "Argument", maps) == Ok("");
    assert TokenAt(s, 5, '%').None?;
    assert [s[5]] + "" == ";";
    assert Expand(s, 5, '%', "Argument", maps) == Ok(";");
    assert "1" + ";" == "1;";
    assert Expand(s, 2, '%', "Argument", maps) == Ok("1;");
    assert TokenAt(s, 1, '%').None?;
    assert [s[1]] + "1;" == "=1;";
    assert Expand(s, 1, '%', "Argument", maps) == Ok("=1;");
    assert [s[0]] + "=1;" == "x=1;";
    assert TokenAt(s, 0, '%').None?;
  }

  /**
   * The lookup order favours earlier maps: a name defined by the first map is
   * taken from it even when a later map defines it too.
   */
  lemma EarlierMapWins(first: map<string, string>, later: seq<Option<map<string, string>>>, id: string)
    requires id in first
    ensures Lookup([Some(first)] + later, id) == Some(first[id])
  {
  }

  /**
   * The text-substitution service: an anchor, the kind named in error
   * messages, and the maps consulted in registration order. `Some` is a map,
   * `None` a null entry (skipped by the lookup).
   */
  class TokenSubstitution {
    const anchor: char
    const kind: string
    var maps: seq<Option<map<string, string>>>

    /** The token pattern is always `\w+` between two anchors. */
    constructor (anchor: char, kind: string)
      requires !IsWordChar(anchor)
      ensures this.anchor == anchor && this.kind == kind && maps == []
    {
      this.anchor := anchor;
      this.kind := kind;
      maps := [];
    }

    /** Registers one more map after the existing ones and returns the service itself for chaining. */
    method AddMap(m: Option<map<string, string>>) returns (self: TokenSubstitution)
      modifies this
      ensures self == this && maps == old(maps) + [m]
    {
      maps := maps + [m];
      self := this;
    }

    method ClearMaps()
      modifies this
      ensures maps == []
    {
      maps := [];
    }

    /** The search over the registered maps, in order, skipping the absent ones. */
    method FindReplacement(token: string) returns (replacement: Option<string>)
      ensures replacement == Lookup(maps, token)
    {
      replacement := None;
      var i := 0;
      while i < |maps|
        invariant 0 <= i <= |maps|
        invariant replacement.None? ==> forall j | 0 <= j < i :: !Defines(maps[j], token)
        invariant replacement.Some? ==> replacement == Lookup(maps, token)
      {
        if maps[i].Some? && token in maps[i].value {
          replacement := Some(maps[i].value[token]);
          assert FirstDefiner(maps, token, i);
          LookupFirst(maps, token, i);
          break;
        }
        i := i + 1;
      }
    }

    /**
     * Replaces every token of `value`; fails with `NotFoundMessage` at the
     * first token that no registered map defines.
     */
    method Substitute(value: string) returns (r: Result<string, string>)
      ensures r == Substituted(value, anchor, kind, maps)
    {
      var result := "";
      PrependEmpty(Substituted(value, anchor, kind, maps));
      var startIdx, oldStartIdx, endIdx := 0, 0, 0;
      var m := FindFrom(value, 0, anchor);
      while m.Some?
        invariant oldStartIdx == endIdx <= |value|
        invariant m == FindFrom(value, endIdx, anchor)
        invariant Substituted(value, anchor, kind, maps) == Prepend(result, Expand(value, endIdx, anchor, kind, maps))
        decreases |value| - endIdx
      {
        var (mStart, mEnd) := m.value;
        var token := TokenId(value, mStart, mEnd);
        var replacement := FindReplacement(token);
        SkipLiteral(value, endIdx, mStart, anchor, kind, maps);
        PrependPrepend(result, value[endIdx..mStart], Expand(value, mStart, anchor, kind, maps));
        if replacement.None? {
          assert mStart < |value|;
          assert Lookup(maps, token).None?;
          assert Expand(value, mStart, anchor, kind, maps) == Err(NotFoundMessage(kind, token));
          return Err(NotFoundMessage(kind, token));
        }
        startIdx := mStart;
        endIdx := mEnd;
        if startIdx > 0 {
          result := result + value[oldStartIdx..startIdx];
          oldStartIdx := mEnd;
        } else {
          oldStartIdx := endIdx;
        }
        PrependPrepend(result, replacement.value, Expand(value, endIdx, anchor, kind, maps));
        result := result + replacement.value;
        m := FindFrom(value, endIdx, anchor);
      }
      var tail := value[endIdx..];
      assert Expand(value, endIdx, anchor, kind, maps) == Ok(tail) by {
        SkipLiteral(value, endIdx, |value|, anchor, kind, maps);
        assert value[endIdx..|value|] + "" == tail;
      }
      if endIdx < |value| {
        result := result + tail;
      } else {
        assert result + tail == result;
      }
      r := Ok(result);
    }
  }

  /** The first definer's value is the lookup's result. */
  lemma LookupFirst(maps: seq<Option<map<string, string>>>, id: string, i: nat)
    requires FirstDefiner(maps, id, i)
    ensures Lookup(maps, id) == Some(maps[i].value[id])
  {
    var r := Lookup(maps, id);
    var j :| 0 <= j < |maps| && FirstDefiner(maps, id, j) && r.value == maps[j].value[id];
    assert i == j;
  }
}
