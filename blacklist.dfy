/**
 * config/blacklist.js: the process-wide array of revoked tokens.
 * Logout pushes onto it, the token gate asks whether it includes a token,
 * and nothing ever removes an entry.
 */
module Blacklist {
  import opened Domain

  class TokenBlacklist {
    /** The array itself, duplicates and `undefined` entries included. */
    var tokens: seq<Token>

    /** The set of tokens the membership test answers yes for. */
    function Members(): set<Token>
      reads this
    {
      Listed(tokens)
    }

    /** The array starts empty: no token is blacklisted. */
    constructor ()
      ensures tokens == []
      ensures forall t :: t !in Members()
    {
      tokens := [];
    }

    /** `addToken`: appends, whether or not the token is already there. */
    method AddToken(t: Token)
      modifies this
      ensures tokens == old(tokens) + [t]
      ensures Members() == old(Members()) + {t}
    {
      tokens := tokens + [t];
    }

    /** `isTokenBlacklisted`: a membership test that changes nothing. */
    method IsTokenBlacklisted(t: Token) returns (listed: bool)
      ensures listed <==> t in Members()
    {
      listed := t in tokens;
    }
  }

  /** The set of tokens an array of blacklisted tokens answers yes for. */
  function Listed(tokens: seq<Token>): set<Token>
  {
    set t | t in tokens
  }

  /**
   * Adding a token twice answers every membership question as adding it once,
   * although the array then holds the token twice.
   */
  lemma {:induction false} AddTwiceAsOnce(tokens: seq<Token>, t: Token)
    ensures Listed(tokens + [t] + [t]) == Listed(tokens + [t])
    ensures tokens + [t] + [t] != tokens + [t]
  {
    assert |tokens + [t] + [t]| != |tokens + [t]|;
  }
}
