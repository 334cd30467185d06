/**
 Queue configuration.  Durations and times are whole milliseconds; the JSON
 text of a configuration is not modelled, so a payload is either absent or a
 `Config` whose ranges have not been checked yet.
 */
module Config {
  import opened Wrappers
  import opened Errors

  const DEFAULT_VISIBILITY := 30_000
  const MAX_VISIBILITY := 43_200_000
  const MAX_DELAY := 900_000

  datatype Config = Config(visibility: int, maxReceives: int, deadLetter: string)

  const DEFAULT_CONFIG := Config(DEFAULT_VISIBILITY, 0, "")

  predicate IsAlphanumeric(c: char) {
    'A' <= c <= 'Z' || 'a' <= c <= 'z' || '0' <= c <= '9'
  }

  /** 1 to 120 letters, digits, dots, underscores and hyphens, starting with a letter or digit. */
  predicate ValidName(s: string) {
    && 1 <= |s| <= 120
    && IsAlphanumeric(s[0])
    && forall i :: 0 < i < |s| ==> IsAlphanumeric(s[i]) || s[i] == '.' || s[i] == '_' || s[i] == '-'
  }

  /** The payload written for c in a qcreate record. */
  function Marshal(c: Config): Option<Config> {
    Some(c)
  }

  /** Applies defaults to a payload and checks its ranges. */
  function ParseConfig(payload: Option<Config>): Result<Config, Error> {
    var given := match payload case None => DEFAULT_CONFIG case Some(c) => c;
    var c := if given.visibility == 0 then given.(visibility := DEFAULT_VISIBILITY) else given;
    if c.visibility < 0 || c.visibility > MAX_VISIBILITY then Err(BadConfig)
    else if c.maxReceives < 0 then Err(BadConfig)
    else if c.deadLetter != "" && !ValidName(c.deadLetter) then Err(BadConfig)
    else Ok(c)
  }

  /** The ranges every parsed configuration meets. */
  predicate InRange(c: Config) {
    && 0 < c.visibility <= MAX_VISIBILITY
    && c.maxReceives >= 0
    && (c.deadLetter == "" || ValidName(c.deadLetter))
  }

  /**
   A missing configuration is 30 seconds without a limit or a dead-letter queue,
   a zero visibility is 30 seconds too, and everything else is taken as given:
   up to 12 hours, any limit but a negative one, any dead-letter queue with a
   well-formed name.
   */
  lemma ParsedConfig(payload: Option<Config>)
    ensures payload.None? ==> ParseConfig(payload) == Ok(Config(30_000, 0, ""))
    ensures payload.Some? ==>
      var c := payload.value;
      if 0 <= c.visibility <= 43_200_000 && c.maxReceives >= 0 && (c.deadLetter == "" || ValidName(c.deadLetter))
      then ParseConfig(payload)
           == Ok(Config(if c.visibility == 0 then 30_000 else c.visibility, c.maxReceives, c.deadLetter))
      else ParseConfig(payload) == Err(BadConfig)
  {
    hide ValidName;
  }

  /** The characters of a queue name; the last three cannot come first. */
  function NameChars(): string {
    "ABCDEFGHIJKLM" + "NOPQRSTUVWXYZ" + "abcdefghijklm" + "nopqrstuvwxyz" + "0123456789" + "._-"
  }

  predicate Punctuation(c: char) {
    c == '.' || c == '_' || c == '-'
  }

  lemma NameCharAt(i: nat)
    ensures |NameChars()| == 65
    ensures i < 26 ==> NameChars()[i] == 'A' + (i as char)
    ensures 26 <= i < 52 ==> NameChars()[i] == 'a' + ((i - 26) as char)
    ensures 52 <= i < 62 ==> NameChars()[i] == '0' + ((i - 52) as char)
    ensures NameChars()[62] == '.' && NameChars()[63] == '_' && NameChars()[64] == '-'
  {
  }

  lemma NameChar(c: char)
    ensures c in NameChars() <==> IsAlphanumeric(c) || Punctuation(c)
  {
    hide NameChars;
    NameCharAt(0);
    if c in NameChars() {
      var i :| 0 <= i < |NameChars()| && NameChars()[i] == c;
      NameCharAt(i);
    }
    if IsAlphanumeric(c) || Punctuation(c) {
      NameCharAt(
        if 'A' <= c <= 'Z' then (c - 'A') as int
        else if 'a' <= c <= 'z' then (c - 'a') as int + 26
        else if '0' <= c <= '9' then (c - '0') as int + 52
        else if c == '.' then 62 else if c == '_' then 63 else 64);
    }
  }

  /** A queue name is up to 120 of these characters, and starts with a letter or a digit. */
  lemma ValidNames(s: string)
    ensures ValidName(s) <==>
      && 1 <= |s| <= 120 && s[0] !in "._-"
      && forall i :: 0 <= i < |s| ==> s[i] in NameChars()
  {
    hide NameChars, IsAlphanumeric;
    if 1 <= |s| <= 120 {
      forall i | 0 <= i < |s| ensures s[i] in NameChars() <==> IsAlphanumeric(s[i]) || Punctuation(s[i])
      {
        NameChar(s[i]);
      }
      NotBoth(s[0]);
    }
  }

  lemma NotBoth(c: char)
    ensures c in "._-" <==> Punctuation(c)
    ensures !(IsAlphanumeric(c) && Punctuation(c))
  {
  }

  /** A logged configuration is read back unchanged exactly when it is in range. */
  lemma ConfigRoundTrip(c: Config)
    ensures ParseConfig(Marshal(c)) == Ok(c) <==> InRange(c)
  {
  }

  /** A new limit that can only let a message be received more often than before. */
  predicate Loosens(before: Config, after: Config) {
    after.maxReceives == 0 || (before.maxReceives > 0 && after.maxReceives >= before.maxReceives)
  }

  /** Received as often as the queue allows without being acknowledged. */
  predicate Exhausted(c: Config, receives: int) {
    c.maxReceives > 0 && receives >= c.maxReceives
  }

  /** Exactly the loosening changes exhaust no receive count that was not exhausted before. */
  lemma LoosensIsExact(before: Config, after: Config)
    ensures Loosens(before, after) || after.maxReceives < 0
       <==> forall n :: Exhausted(after, n) ==> Exhausted(before, n)
  {
    if !Loosens(before, after) && after.maxReceives >= 0 {
      assert Exhausted(after, after.maxReceives) && !Exhausted(before, after.maxReceives);
    }
  }
}
