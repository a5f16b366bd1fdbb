/**
 * The API-key format check shared, character for character, by the backend
 * gateway (`isValidApiKey`) and the frontend client (`isValidApiKey`): a key
 * of at least 10 characters that matches `^[a-zA-Z0-9]{32,}$`,
 * `^sk-[a-zA-Z0-9]{48,}$` or `^kl-[a-zA-Z0-9]{48,}$`.
 */
module ApiKeyFormat {
  import opened JsText

  predicate IsAsciiAlnum(c: char) {
    ('a' <= c <= 'z') || ('A' <= c <= 'Z') || ('0' <= c <= '9')
  }

  predicate AllAlnum(s: string) {
    forall i :: 0 <= i < |s| ==> IsAsciiAlnum(s[i])
  }

  /** `^<prefix>[a-zA-Z0-9]{min,}$` */
  predicate PrefixedAlnum(key: string, prefix: string, min: nat) {
    StartsWith(key, prefix) && |key| - |prefix| >= min && AllAlnum(key[|prefix|..])
  }

  function IsValidApiKey(key: string): bool {
    if |key| < 10 then false
    else PrefixedAlnum(key, "", 32) || PrefixedAlnum(key, "sk-", 48) || PrefixedAlnum(key, "kl-", 48)
  }

  /**
   * The three accepted forms, without the 10-character floor: every form
   * already needs at least 32 characters, so the floor never decides.
   */
  lemma ValidApiKeyForms(key: string)
    ensures IsValidApiKey(key) <==>
      (|key| >= 32 && AllAlnum(key))
      || (StartsWith(key, "sk-") && |key| >= 51 && AllAlnum(key[3..]))
      || (StartsWith(key, "kl-") && |key| >= 51 && AllAlnum(key[3..]))
  {
    assert key[|""|..] == key;
  }

  /** Keys shorter than 32 characters are always refused; keys of the `sk-` or `kl-` form need 51. */
  lemma ShortKeysRefused(key: string)
    requires |key| < 32
    ensures !IsValidApiKey(key)
  {
  }

  /** A prefixed key is never accepted through the plain form, because `-` is not alphanumeric. */
  lemma PrefixedKeyNeedsPrefixForm(key: string)
    requires IsValidApiKey(key) && StartsWith(key, "sk-")
    ensures |key| >= 51 && AllAlnum(key[3..])
  {
    assert key[2] == '-';
    assert !IsAsciiAlnum(key[2]);
    ValidApiKeyForms(key);
  }
}
