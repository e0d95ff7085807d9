/**
 * The two alias sanitisers run on every keystroke: the one of the signup and
 * complete-profile screens keeps a leading '@', the one of the edit-profile
 * screen removes it. Both drop every character outside `[A-Za-z0-9_]`
 * (apart from '@' in the first).
 */
module Alias {
  import opened Text

  /**
   * `handleAliasChange` of app/signup.tsx and app/complete-profile.tsx (the
   * two are identical): prefix '@' unless the text already starts with one,
   * removing only the FIRST '@' of the text before doing so, then keep
   * `[@a-zA-Z0-9_]`.
   */
  function ForceAt(text: string): (r: string)
    ensures |r| >= 1 && r[0] == '@'
    ensures AllIn(AliasChar, r)
  {
    var formatted := if StartsWith(text, '@') then text else "@" + RemoveFirst(text, '@');
    assert formatted == [formatted[0]] + formatted[1..];
    Keep(AliasChar, formatted)
  }

  /** The number of '@'s the input had, but at least one: later '@'s survive when the first is replaced. */
  lemma ForceAtCountsAt(text: string)
    ensures multiset(ForceAt(text))['@'] == if multiset(text)['@'] == 0 then 1 else multiset(text)['@']
  {
    var formatted := if StartsWith(text, '@') then text else "@" + RemoveFirst(text, '@');
    KeepCount(AliasChar, formatted, '@');
    if !StartsWith(text, '@') {
      assert multiset(formatted) == multiset{'@'} + multiset(RemoveFirst(text, '@'));
    }
  }

  /** The word characters of the result are exactly those of the input, in the same order. */
  lemma ForceAtKeepsWordChars(text: string)
    ensures Keep(Word, ForceAt(text)) == Keep(Word, text)
  {
    var formatted := if StartsWith(text, '@') then text else "@" + RemoveFirst(text, '@');
    KeepNarrower(Word, AliasChar, formatted);
    if !StartsWith(text, '@') {
      KeepConcat(Word, "@", RemoveFirst(text, '@'));
      RemoveFirstKeep(Word, text, '@');
    }
  }

  /** Sanitising a sanitised alias changes nothing. */
  lemma ForceAtIdempotent(text: string)
    ensures ForceAt(ForceAt(text)) == ForceAt(text)
  {
    KeepAllIn(AliasChar, ForceAt(text));
  }

  /** `alias.replace('@', '')` on a sanitised alias removes exactly the leading '@'. */
  lemma ApiAliasOfForceAt(text: string)
    ensures RemoveFirst(ForceAt(text), '@') == ForceAt(text)[1..]
  {
    RemoveFirstLeading(ForceAt(text), '@');
  }

  /**
   * The alias sent on has exactly one '@' fewer than the sanitised one: the
   * typed text's later '@'s all survive, so it keeps an '@' exactly when the
   * text held two or more.
   */
  lemma ApiAliasAtCount(text: string)
    ensures multiset(RemoveFirst(ForceAt(text), '@'))['@'] == multiset(ForceAt(text))['@'] - 1
    ensures multiset(RemoveFirst(ForceAt(text), '@'))['@'] ==
              if multiset(text)['@'] == 0 then 0 else multiset(text)['@'] - 1
  {
    assert '@' in ForceAt(text) by {
      assert ForceAt(text)[0] == '@';
    }
    ForceAtCountsAt(text);
  }

  /** `handleAliasChange` of app/edit-profile.tsx: drop one leading '@', then keep `[a-zA-Z0-9_]`. */
  function StripAt(text: string): (r: string)
    ensures AllIn(Word, r) && '@' !in r
  {
    var formatted := if StartsWith(text, '@') then text[1..] else text;
    Keep(Word, formatted)
  }

  /** Dropping the leading '@' first makes no difference: the result is the input's word characters. */
  lemma StripAtIsWordFilter(text: string)
    ensures StripAt(text) == Keep(Word, text)
  {
    if StartsWith(text, '@') {
      assert text == [text[0]] + text[1..];
      KeepConcat(Word, [text[0]], text[1..]);
    }
  }

  /** Stripping a stripped alias changes nothing. */
  lemma StripAtIdempotent(text: string)
    ensures StripAt(StripAt(text)) == StripAt(text)
  {
    StripAtIsWordFilter(StripAt(text));
    KeepAllIn(Word, StripAt(text));
  }

  /** The edit-profile sanitiser undoes the signup one down to the input's word characters. */
  lemma StripAtOfForceAt(text: string)
    ensures StripAt(ForceAt(text)) == Keep(Word, text)
  {
    StripAtIsWordFilter(ForceAt(text));
    ForceAtKeepsWordChars(text);
  }
}
