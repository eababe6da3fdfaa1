/**
 * get_clean_alias: turns a title into a DataFed alias by replacing
 * punctuation and spaces with '_', keeping at most 60 characters,
 * lower-casing and trimming.
 */
module Alias {
  import opened PyStrings

  const MaxAliasLength: nat := 60

  /**
   * The characters replaced by '_' one after the other.  The backslash belongs
   * to the set: in the Python literal, the backslash before ':' starts no
   * escape and stays in the string.
   */
  const Forbidden: string := "~`!@#$%^&*()+=[{}]|\\:,;\"<>/?-"

  /** A character that never survives into an alias. */
  predicate Banned(c: char) {
    c in Forbidden || c == ' '
  }

  /** The replacement step: every forbidden character and every space becomes '_'. */
  function Underscored(s: string): string {
    seq(|s|, k requires 0 <= k < |s| => if Banned(s[k]) then '_' else s[k])
  }

  /** The alias get_clean_alias computes for a title. */
  function CleanAlias(title: string): string {
    Strip(Lower(Take(Underscored(title), MaxAliasLength)))
  }

  /** A well-formed alias: short, trimmed, lower-case and free of banned characters. */
  predicate IsAlias(a: string) {
    && |a| <= MaxAliasLength
    && Trimmed(a)
    && forall k :: 0 <= k < |a| ==> !Banned(a[k]) && !IsUpper(a[k])
  }

  /**
   * get_clean_alias: rebinds the title once per forbidden character, then
   * replaces spaces, truncates, lower-cases and strips.
   */
  method GetCleanAlias(title: string) returns (alias: string)
    ensures alias == CleanAlias(title)
  {
    var t := title;
    for i := 0 to |Forbidden|
      invariant |t| == |title|
      invariant forall k :: 0 <= k < |t| ==> t[k] == if title[k] in Forbidden[..i] then '_' else title[k]
    {
      assert Forbidden[..i + 1] == Forbidden[..i] + [Forbidden[i]];
      t := ReplaceChar(t, Forbidden[i], '_');
    }
    assert Forbidden[..|Forbidden|] == Forbidden;
    t := ReplaceChar(t, ' ', '_');
    assert t == Underscored(title);
    t := Take(t, MaxAliasLength);
    alias := Strip(Lower(t));
  }

  /** The replacement step leaves no banned character. */
  lemma UnderscoredClean(s: string)
    ensures forall k :: 0 <= k < |s| ==> !Banned(Underscored(s)[k])
  {
    assert !Banned('_');
  }

  /** Lower-casing a character that is not banned gives one that is neither banned nor upper-case. */
  lemma LowerCharClean(c: char)
    requires !Banned(c)
    ensures !Banned(LowerChar(c)) && !IsUpper(LowerChar(c))
  {
    if IsUpper(c) {
      var d := LowerChar(c);
      assert 'a' <= d <= 'z';
      forall i | 0 <= i < |Forbidden| ensures Forbidden[i] != d {
      }
    }
  }

  /** Every alias get_clean_alias returns is well-formed, whatever the title. */
  lemma CleanAliasIsAlias(title: string)
    ensures IsAlias(CleanAlias(title))
  {
    var u := Take(Underscored(title), MaxAliasLength);
    var l := Lower(u);
    var ok := (c: char) => !Banned(c) && !IsUpper(c);
    UnderscoredClean(title);
    forall k | 0 <= k < |l| ensures ok(l[k]) {
      assert u[k] == Underscored(title)[k];
      LowerCharClean(u[k]);
    }
    StripPreserves(l, ok);
  }

  /** A well-formed alias is its own clean alias. */
  lemma {:induction false} CleanAliasOfAlias(a: string)
    requires IsAlias(a)
    ensures CleanAlias(a) == a
  {
    assert Underscored(a) == a;
    assert Take(a, MaxAliasLength) == a;
    assert Lower(a) == a;
    StripTrimmed(a);
  }

  /** get_clean_alias is idempotent, so re-cleaning a cleaned alias changes nothing. */
  lemma CleanAliasIdempotent(title: string)
    ensures CleanAlias(CleanAlias(title)) == CleanAlias(title)
  {
    CleanAliasIsAlias(title);
    CleanAliasOfAlias(CleanAlias(title));
  }

  /** Python whitespace other than the plain space passes the replacement step untouched. */
  lemma BannedSpaceIsPlainSpace(c: char)
    ensures Banned(c) && IsSpace(c) <==> c == ' '
  {
    if c in Forbidden {
      var i :| 0 <= i < |Forbidden| && Forbidden[i] == c;
      assert !IsSpace(Forbidden[i]);
    }
  }

  /** The clean alias is empty exactly when the truncated title is only whitespace. */
  lemma CleanAliasEmptyIff(title: string)
    ensures CleanAlias(title) == "" <==>
            forall k :: 0 <= k < |Take(title, MaxAliasLength)| ==> IsSpace(title[k]) && title[k] != ' '
  {
    var u := Take(Underscored(title), MaxAliasLength);
    var l := Lower(u);
    StripEmptyIff(l);
    assert |u| == |Take(title, MaxAliasLength)|;
    forall k | 0 <= k < |u| ensures IsSpace(l[k]) <==> IsSpace(title[k]) && title[k] != ' ' {
      assert u[k] == Underscored(title)[k];
      BannedSpaceIsPlainSpace(title[k]);
    }
  }
}
