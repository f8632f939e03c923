/**
 * Origin allow-list matching (`isOriginAllowed`, src/index.ts:7-29).
 *
 * The ECMAScript regular-expression engine is not modelled. It enters as a
 * parameter: `compiles(p)` says whether `new RegExp(p)` succeeds, and
 * `test(p, o)` whether the compiled pattern finds a match anywhere in `o`.
 * Every result below holds for every engine.
 */
module OriginAllowList {
  import opened Strings

  /** An entry starting with this character is a pattern, the character stripped. */
  const PatternSentinel: char := '@'

  datatype RegexEngine = RegexEngine(compiles: string -> bool, test: (string, string) -> bool)

  predicate IsPatternEntry(entry: string)
  {
    StartsWithChar(entry, PatternSentinel)
  }

  /** The pattern an `@` entry stands for. */
  function PatternOf(entry: string): string
    requires IsPatternEntry(entry)
  {
    entry[1..]
  }

  /**
   * Whether one entry lets the origin through: a pattern entry when its
   * pattern compiles and matches, any other entry when it is the origin itself.
   */
  predicate EntryAccepts(engine: RegexEngine, entry: string, origin: string)
    ensures EntryAccepts(engine, entry, origin) ==> IsPatternEntry(entry) || entry == origin
    ensures IsPatternEntry(entry) && !engine.compiles(PatternOf(entry)) ==> !EntryAccepts(engine, entry, origin)
    ensures !IsPatternEntry(entry) && entry == origin ==> EntryAccepts(engine, entry, origin)
  {
    if IsPatternEntry(entry) then
      engine.compiles(PatternOf(entry)) && engine.test(PatternOf(entry), origin)
    else
      origin == entry
  }

  /** The scan of the allow-list, first entry first, stopping at the first acceptance. */
  function OriginAllowed(engine: RegexEngine, origin: string, entries: seq<string>): (allowed: bool)
    ensures allowed <==> exists i :: 0 <= i < |entries| && EntryAccepts(engine, entries[i], origin)
  {
    if entries == [] then false
    else if EntryAccepts(engine, entries[0], origin) then true
    else
      var later := OriginAllowed(engine, origin, entries[1..]);
      assert later ==> exists i :: 1 <= i < |entries| && EntryAccepts(engine, entries[i], origin) by {
        if later {
          var i :| 0 <= i < |entries[1..]| && EntryAccepts(engine, entries[1..][i], origin);
          assert entries[1..][i] == entries[i + 1];
        }
      }
      later
  }

  /** `isOriginAllowed` as written: a loop with early returns and a `continue` for a pattern that does not compile. */
  method IsOriginAllowed(engine: RegexEngine, origin: string, allowedOrigins: seq<string>) returns (allowed: bool)
    ensures allowed <==> exists i :: 0 <= i < |allowedOrigins| && EntryAccepts(engine, allowedOrigins[i], origin)
    ensures allowed == OriginAllowed(engine, origin, allowedOrigins)
  {
    for i := 0 to |allowedOrigins|
      invariant forall j :: 0 <= j < i ==> !EntryAccepts(engine, allowedOrigins[j], origin)
    {
      var allowedOrigin := allowedOrigins[i];
      if StartsWithChar(allowedOrigin, PatternSentinel) {
        var regexPattern := allowedOrigin[1..];
        if !engine.compiles(regexPattern) {
          // the constructor throws; the catch moves on to the next entry
          continue;
        }
        if engine.test(regexPattern, origin) {
          return true;
        }
      } else {
        if origin == allowedOrigin {
          return true;
        }
      }
    }
    return false;
  }

  /**
   * Acceptance by kind of entry: some literal entry is exactly the origin, or
   * some pattern entry's pattern compiles and matches it. A pattern entry is
   * never compared with the origin as text, and a literal entry never goes
   * to the regex engine.
   */
  lemma AcceptanceByKind(engine: RegexEngine, origin: string, entries: seq<string>)
    ensures OriginAllowed(engine, origin, entries) <==>
      (exists i :: 0 <= i < |entries| && !IsPatternEntry(entries[i]) && entries[i] == origin) ||
      (exists i :: 0 <= i < |entries| && IsPatternEntry(entries[i]) &&
         engine.compiles(PatternOf(entries[i])) && engine.test(PatternOf(entries[i]), origin))
  {
  }

  /** With no pattern entries, the list accepts exactly its own members, case and all. */
  lemma LiteralListIsMembership(engine: RegexEngine, origin: string, entries: seq<string>)
    requires forall i :: 0 <= i < |entries| ==> !IsPatternEntry(entries[i])
    ensures OriginAllowed(engine, origin, entries) <==> origin in entries
  {
  }

  /** The verdict over a concatenation is the verdict of either half: order and position do not matter. */
  lemma {:induction false} OriginAllowedAppend(engine: RegexEngine, origin: string, a: seq<string>, b: seq<string>)
    ensures OriginAllowed(engine, origin, a + b) == (OriginAllowed(engine, origin, a) || OriginAllowed(engine, origin, b))
  {
    if OriginAllowed(engine, origin, a) {
      var i :| 0 <= i < |a| && EntryAccepts(engine, a[i], origin);
      assert (a + b)[i] == a[i];
    } else if OriginAllowed(engine, origin, b) {
      var i :| 0 <= i < |b| && EntryAccepts(engine, b[i], origin);
      assert (a + b)[|a| + i] == b[i];
    } else {
      forall k | 0 <= k < |a + b| ensures !EntryAccepts(engine, (a + b)[k], origin) {
        if k < |a| { assert (a + b)[k] == a[k]; } else { assert (a + b)[k] == b[k - |a|]; }
      }
    }
  }

  /**
   * A pattern entry that does not compile neither accepts nor stops the scan:
   * the list answers as if the entry were not there.
   */
  lemma {:induction false} InvalidPatternIsSkipped(engine: RegexEngine, origin: string, entries: seq<string>, k: nat)
    requires k < |entries|
    requires IsPatternEntry(entries[k]) && !engine.compiles(PatternOf(entries[k]))
    ensures OriginAllowed(engine, origin, entries) == OriginAllowed(engine, origin, entries[..k] + entries[k + 1..])
  {
    assert entries == entries[..k] + [entries[k]] + entries[k + 1..];
    OriginAllowedAppend(engine, origin, entries[..k] + [entries[k]], entries[k + 1..]);
    OriginAllowedAppend(engine, origin, entries[..k], [entries[k]]);
    OriginAllowedAppend(engine, origin, entries[..k], entries[k + 1..]);
  }
}
