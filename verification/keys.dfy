/**
 * Identity of an investor across answers: the name lower-cased, then stripped
 * of every character outside `[a-z0-9]` (App.jsx, `aggregateResults`).
 */
module Keys {
  import opened Text

  predicate IsKeyChar(c: char) {
    'a' <= c <= 'z' || '0' <= c <= '9'
  }

  /** `.replace(/[^a-z0-9]/g, '')`: keeps the key characters, in order. */
  function KeepKeyChars(s: string): (r: string)
    ensures |r| <= |s|
    ensures forall i :: 0 <= i < |r| ==> IsKeyChar(r[i])
  {
    if s == [] then []
    else (if IsKeyChar(s[0]) then [s[0]] else []) + KeepKeyChars(s[1..])
  }

  /** The identity key of an investor name. */
  function Key(name: string): (k: string)
    ensures |k| <= |name|
    ensures forall i :: 0 <= i < |k| ==> IsKeyChar(k[i])
  {
    KeepKeyChars(Lower(name))
  }

  lemma {:induction false} KeepKeyCharsAppend(a: string, b: string)
    ensures KeepKeyChars(a + b) == KeepKeyChars(a) + KeepKeyChars(b)
    decreases |a|
  {
    if a == [] {
      assert a + b == b;
    } else {
      assert (a + b)[1..] == a[1..] + b;
      KeepKeyCharsAppend(a[1..], b);
    }
  }

  lemma {:induction false} LowerAppend(a: string, b: string)
    ensures Lower(a + b) == Lower(a) + Lower(b)
  {
  }

  /** Keys are computed character by character: the key of a concatenation is the concatenation of keys. */
  lemma KeyAppend(a: string, b: string)
    ensures Key(a + b) == Key(a) + Key(b)
  {
    LowerAppend(a, b);
    KeepKeyCharsAppend(Lower(a), Lower(b));
  }

  lemma {:induction false} KeepKeyCharsFixed(s: string)
    requires forall i :: 0 <= i < |s| ==> IsKeyChar(s[i])
    ensures KeepKeyChars(s) == s
  {
    if s != [] {
      KeepKeyCharsFixed(s[1..]);
    }
  }

  /** A string made only of key characters is its own key. */
  lemma KeyOfKeyChars(s: string)
    requires forall i :: 0 <= i < |s| ==> IsKeyChar(s[i])
    ensures Key(s) == s
  {
    assert Lower(s) == s;
    KeepKeyCharsFixed(s);
  }

  /** Re-normalising a key changes nothing. */
  lemma KeyIdempotent(name: string)
    ensures Key(Key(name)) == Key(name)
  {
    KeyOfKeyChars(Key(name));
  }

  /** Names differing only in ASCII case share a key. */
  lemma KeyIgnoresCase(name: string)
    ensures Key(Lower(name)) == Key(name)
  {
    assert Lower(Lower(name)) == Lower(name);
  }

  lemma LowerFondoAlfa()
    ensures Lower("Fondo Alfa") == "fondo alfa"
  {
  }

  lemma LowerFondoAlfaCaps()
    ensures Lower("FONDO ALFA") == "fondo alfa"
  {
  }

  lemma LowerSpa()
    ensures Lower(" S.p.A.") == " s.p.a."
  {
  }

  lemma KeepFondoAlfa()
    ensures KeepKeyChars("fondo alfa") == "fondoalfa"
  {
  }

  lemma KeepSpa()
    ensures KeepKeyChars(" s.p.a.") == "spa"
  {
  }

  lemma KeyOfFondoAlfa()
    ensures Key("Fondo Alfa") == "fondoalfa"
  {
    LowerFondoAlfa();
    KeepFondoAlfa();
  }

  lemma KeyOfFondoAlfaCaps()
    ensures Key("FONDO ALFA") == "fondoalfa"
  {
    LowerFondoAlfaCaps();
    KeepFondoAlfa();
  }

  lemma KeyOfSpa()
    ensures Key(" S.p.A.") == "spa"
  {
    LowerSpa();
    KeepSpa();
  }

  /** A legal-form suffix such as " S.p.A." contributes its letters to the key. */
  lemma SpaSuffixChangesKey(name: string)
    ensures Key(name + " S.p.A.") == Key(name) + "spa"
    ensures Key(name + " S.p.A.") != Key(name)
  {
    KeyOfSpa();
    KeyAppend(name, " S.p.A.");
    assert |Key(name) + "spa"| == |Key(name)| + 3;
  }

  /**
   * "Fondo Alfa" and "FONDO ALFA S.p.A." are different investors to the engine:
   * the letters of "S.p.A." survive normalisation.
   */
  lemma FondoAlfaKeysDiffer()
    ensures Key("Fondo Alfa") != Key("FONDO ALFA" + " S.p.A.")
  {
    KeyOfFondoAlfa();
    KeyOfFondoAlfaCaps();
    SpaSuffixChangesKey("FONDO ALFA");
  }
}
