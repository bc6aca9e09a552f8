/**
 * TelegramBot/src/general.py: the user record the bot keeps per Telegram
 * user, Markdown escaping of text that comes from the portal, and the first
 * calendar year of the current school year.
 */
module General {
  import opened Values

  /**
   * The dict `get_user_from_db` hands out for one user; the commands and
   * handlers change its entries and write it back with `update_db`.
   */
  class UserRecord {
    var fields: map<string, Value>

    constructor (fields: map<string, Value>)
      ensures this.fields == fields
    {
      this.fields := fields;
    }
  }

  /** `s.replace(c, r)` for a one-character pattern: every `c` becomes `r`. */
  function Replace(s: string, c: char, r: string): string {
    if s == [] then [] else (if s[0] == c then r else [s[0]]) + Replace(s[1..], c, r)
  }

  lemma {:induction false} ReplaceAppend(a: string, b: string, c: char, r: string)
    ensures Replace(a + b, c, r) == Replace(a, c, r) + Replace(b, c, r)
  {
    if a != [] {
      assert (a + b)[1..] == a[1..] + b;
      ReplaceAppend(a[1..], b, c, r);
    } else {
      assert a + b == b;
    }
  }

  /** `escape_illegal_chars`: seven `replace` calls, each putting a backslash before one character. */
  function EscapeIllegalChars(s: string): string {
    Replace(Replace(Replace(Replace(Replace(Replace(Replace(s,
      '[', "\\["), ']', "\\]"), '*', "\\*"), '_', "\\_"), '`', "\\`"), '-', "\\-"), '=', "\\=")
  }

  /** The characters the chain escapes, in the order it escapes them. */
  const Targets: string := "[]*_`-="

  predicate IsTarget(c: char) {
    c == '[' || c == ']' || c == '*' || c == '_' || c == '`' || c == '-' || c == '='
  }

  /** The chain as a fold over `ts`: one `replace` per character, first to last. */
  function EscapeWith(s: string, ts: string): string
    decreases |ts|
  {
    if ts == [] then s else EscapeWith(Replace(s, ts[0], ['\\', ts[0]]), ts[1..])
  }

  /** One pass over the text: each character of `ts` gets a backslash in front, the rest stay. */
  function EscapeEachIn(s: string, ts: string): string {
    if s == [] then [] else (if s[0] in ts then ['\\', s[0]] else [s[0]]) + EscapeEachIn(s[1..], ts)
  }

  lemma {:induction false} EscapeEachInAppend(a: string, b: string, ts: string)
    ensures EscapeEachIn(a + b, ts) == EscapeEachIn(a, ts) + EscapeEachIn(b, ts)
  {
    if a != [] {
      assert (a + b)[1..] == a[1..] + b;
      EscapeEachInAppend(a[1..], b, ts);
    } else {
      assert a + b == b;
    }
  }

  /**
   * Replacing `t` by `\t` first and then escaping the other targets in one
   * pass is one pass over all of them, because neither `\` nor `t` is among
   * the later targets.
   */
  lemma {:induction false} ReplaceThenEscape(s: string, t: char, ts: string)
    requires t !in ts && '\\' !in ts
    ensures EscapeEachIn(Replace(s, t, ['\\', t]), ts) == EscapeEachIn(s, [t] + ts)
  {
    if s != [] {
      var head: string := if s[0] == t then ['\\', t] else [s[0]];
      assert Replace(s, t, ['\\', t]) == head + Replace(s[1..], t, ['\\', t]);
      EscapeEachInAppend(head, Replace(s[1..], t, ['\\', t]), ts);
      ReplaceThenEscape(s[1..], t, ts);
      if s[0] == t {
        assert EscapeEachIn(head, ts) == ['\\'] + EscapeEachIn([t], ts);
        assert EscapeEachIn([t], ts) == [t];
      } else {
        assert EscapeEachIn(head, ts) == EscapeEachIn([s[0]], [t] + ts) by {
          assert s[0] in ts <==> s[0] in [t] + ts;
        }
      }
    }
  }

  /** With distinct targets that exclude the backslash, the fold of replaces is a single pass. */
  lemma {:induction false} FoldIsOnePass(s: string, ts: string)
    requires '\\' !in ts
    requires forall i, j :: 0 <= i < j < |ts| ==> ts[i] != ts[j]
    ensures EscapeWith(s, ts) == EscapeEachIn(s, ts)
    decreases |ts|
  {
    if ts == [] {
      EscapeNothing(s);
    } else {
      var t := ts[0];
      assert t !in ts[1..] by {
        forall k | 0 <= k < |ts[1..]|
          ensures ts[1..][k] != t
        {
          assert ts[1..][k] == ts[k + 1];
        }
      }
      FoldIsOnePass(Replace(s, t, ['\\', t]), ts[1..]);
      ReplaceThenEscape(s, t, ts[1..]);
      assert [t] + ts[1..] == ts;
    }
  }

  lemma {:induction false} EscapeNothing(s: string)
    ensures EscapeEachIn(s, []) == s
  {
    if s != [] {
      EscapeNothing(s[1..]);
    }
  }

  /**
   * The chain of seven replaces equals a single pass that puts a backslash
   * before each of `[ ] * _ `` ` `` - =` and keeps every other character.
   */
  lemma EscapeIsOnePass(s: string)
    ensures EscapeIllegalChars(s) == EscapeEachIn(s, Targets)
  {
    assert EscapeIllegalChars(s) == EscapeWith(s, Targets);
    FoldIsOnePass(s, Targets);
  }

  /** The number of target characters in `s`. */
  function CountTargets(s: string): nat {
    if s == [] then 0 else (if IsTarget(s[0]) then 1 else 0) + CountTargets(s[1..])
  }

  /** Each target gains one backslash: the escaped text is longer by exactly their number. */
  lemma {:induction false} EscapeLength(s: string)
    ensures |EscapeEachIn(s, Targets)| == |s| + CountTargets(s)
  {
    if s != [] {
      assert s[0] in Targets <==> IsTarget(s[0]);
      EscapeLength(s[1..]);
    }
  }

  /** Escaping keeps every target character, so escaped text has as many targets as the original. */
  lemma {:induction false} EscapeKeepsTargets(s: string)
    ensures CountTargets(EscapeEachIn(s, Targets)) == CountTargets(s)
  {
    if s != [] {
      assert s[0] in Targets <==> IsTarget(s[0]);
      var head: string := if IsTarget(s[0]) then ['\\', s[0]] else [s[0]];
      assert EscapeEachIn(s, Targets) == head + EscapeEachIn(s[1..], Targets);
      CountTargetsAppend(head, EscapeEachIn(s[1..], Targets));
      EscapeKeepsTargets(s[1..]);
    }
  }

  lemma {:induction false} CountTargetsAppend(a: string, b: string)
    ensures CountTargets(a + b) == CountTargets(a) + CountTargets(b)
  {
    if a != [] {
      assert (a + b)[1..] == a[1..] + b;
      CountTargetsAppend(a[1..], b);
    } else {
      assert a + b == b;
    }
  }

  /**
   * Escaping already-escaped text escapes again: on any text with a target
   * character the second pass adds more backslashes.
   */
  lemma EscapeNotIdempotent(s: string)
    requires CountTargets(s) > 0
    ensures EscapeIllegalChars(EscapeIllegalChars(s)) != EscapeIllegalChars(s)
  {
    var e := EscapeIllegalChars(s);
    EscapeIsOnePass(s);
    EscapeIsOnePass(e);
    EscapeLength(e);
    EscapeKeepsTargets(s);
  }

  /** Reads escaped text back: a backslash followed by a target stands for that target. */
  function Unescape(s: string): string {
    if s == [] then []
    else if |s| >= 2 && s[0] == '\\' && IsTarget(s[1]) then [s[1]] + Unescape(s[2..])
    else [s[0]] + Unescape(s[1..])
  }

  /** Escaping loses nothing: the original text can be read back from the escaped one. */
  lemma {:induction false} UnescapeEscape(s: string)
    ensures Unescape(EscapeIllegalChars(s)) == s
  {
    EscapeIsOnePass(s);
    UnescapeEachIn(s);
  }

  lemma {:induction false} UnescapeEachIn(s: string)
    ensures Unescape(EscapeEachIn(s, Targets)) == s
  {
    if s != [] {
      var rest := EscapeEachIn(s[1..], Targets);
      UnescapeEachIn(s[1..]);
      assert s[0] in Targets <==> IsTarget(s[0]);
      if IsTarget(s[0]) {
        assert EscapeEachIn(s, Targets) == ['\\', s[0]] + rest;
        assert (['\\', s[0]] + rest)[2..] == rest;
      } else {
        assert EscapeEachIn(s, Targets) == [s[0]] + rest;
        assert ([s[0]] + rest)[1..] == rest;
        if s[0] == '\\' && rest != [] {
          // the next original character, escaped or not, never starts with a target
          assert !IsTarget(rest[0]) by {
            assert rest[0] == (if IsTarget(s[1]) then '\\' else s[1]);
          }
        }
      }
    }
  }

  /**
   * `get_school_start_year` for the clock's year and month: the school year
   * starts on 1 September, so before September it began the year before.
   */
  function SchoolStartYear(year: int, month: int): (start: int)
    requires 1 <= month <= 12
    ensures start == year - 1 || start == year
  {
    if month < 9 then year - 1 else year
  }

  /**
   * The month lies in the school year the function names: from September of
   * the start year to August of the next, which are the bounds the bot asks
   * the portal for.
   */
  lemma SchoolYearContains(year: int, month: int)
    requires 1 <= month <= 12
    ensures var start := SchoolStartYear(year, month);
            (year == start && 9 <= month) || (year == start + 1 && month <= 8)
  {
  }
}
