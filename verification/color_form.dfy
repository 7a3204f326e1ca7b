/** The colour-guess form of server.js (`POST /`): the submitted name is
    lower-cased, stripped of every white-space character and looked up in the
    static colour table; the template parameters then take one of three
    shapes (no input, found, not found). */
module ColorForm {
  import opened Values

  /** A character matched by `\s` in a JavaScript regular expression: the
      ECMAScript WhiteSpace and LineTerminator code points. */
  predicate IsSpace(c: char)
  {
    || c == '\t' || c == '\n' || c == '\U{000B}' || c == '\U{000C}' || c == '\r'
    || c == ' ' || c == '\U{00A0}' || c == '\U{1680}'
    || ('\U{2000}' <= c <= '\U{200A}')
    || c == '\U{2028}' || c == '\U{2029}' || c == '\U{202F}' || c == '\U{205F}'
    || c == '\U{3000}' || c == '\U{FEFF}'
  }

  /** An upper-case letter that `toLowerCase` maps in this model: the ASCII
      letters and the Latin-1 capitals (U+00C0 to U+00DE without U+00D7). */
  predicate IsUpper(c: char)
  {
    ('A' <= c <= 'Z') || ('\U{00C0}' <= c <= '\U{00DE}' && c != '\U{00D7}')
  }

  /** A lower-case letter whose capital this model knows: the ASCII letters
      and the Latin-1 small letters (U+00E0 to U+00FE without U+00F7). */
  predicate IsLowerLetter(c: char)
  {
    ('a' <= c <= 'z') || ('\U{00E0}' <= c <= '\U{00FE}' && c != '\U{00F7}')
  }

  /** `toUpperCase` on one character, the inverse of `LowerChar` on
      capitals. */
  function UpperChar(c: char): (u: char)
    ensures IsLowerLetter(c) ==> IsUpper(u)
    ensures !IsLowerLetter(c) ==> u == c
  {
    if IsLowerLetter(c) then (c as int - 32) as char else c
  }

  /** `toLowerCase` on one character: a capital becomes the small letter
      whose capital it is, every other character is kept. */
  function LowerChar(c: char): (l: char)
    ensures !IsUpper(l)
    ensures IsSpace(l) <==> IsSpace(c)
    ensures l == c <==> !IsUpper(c)
    ensures IsUpper(c) ==> IsLowerLetter(l) && UpperChar(l) == c
  {
    if IsUpper(c) then (c as int + 32) as char else c
  }

  /** `String.prototype.toLowerCase`: every character is lowered in place. */
  function ToLower(s: string): (r: string)
    ensures |r| == |s|
    ensures forall i :: 0 <= i < |s| ==> r[i] == LowerChar(s[i])
  {
    if s == [] then [] else [LowerChar(s[0])] + ToLower(s[1..])
  }

  /** `s.replace(/\s/g, "")`: every white-space character removed, the others
      kept in order (`StripSpacesAppend`, `StripSpacesCounts`,
      `StripSpacesKeepsClean` pin it down). */
  function StripSpaces(s: string): (r: string)
    ensures |r| <= |s|
    ensures forall c :: c in r <==> c in s && !IsSpace(c)
  {
    if s == [] then []
    else (if IsSpace(s[0]) then [] else [s[0]]) + StripSpaces(s[1..])
  }

  /** Each character keeps its number of occurrences, except white space,
      which disappears. */
  lemma {:induction false} StripSpacesCounts(s: string)
    ensures forall c :: multiset(StripSpaces(s))[c] == if IsSpace(c) then 0 else multiset(s)[c]
  {
    if s != [] {
      StripSpacesCounts(s[1..]);
      assert s == [s[0]] + s[1..];
      assert multiset(s) == multiset([s[0]]) + multiset(s[1..]);
    }
  }

  /** A string without white space is kept whole. */
  lemma {:induction false} StripSpacesKeepsClean(s: string)
    requires forall i :: 0 <= i < |s| ==> !IsSpace(s[i])
    ensures StripSpaces(s) == s
  {
    if s != [] {
      StripSpacesKeepsClean(s[1..]);
      assert s == [s[0]] + s[1..];
    }
  }

  /** A table key as the handler forms it: no white space, no upper case. */
  predicate IsNormal(k: string)
  {
    forall i :: 0 <= i < |k| ==> !IsSpace(k[i]) && !IsUpper(k[i])
  }

  /** The lookup key formed from the submitted name (server.js:242). */
  function Normalize(s: string): (key: string)
    ensures IsNormal(key)
    ensures |key| <= |s|
  {
    var key := StripSpaces(ToLower(s));
    assert forall i :: 0 <= i < |key| ==> key[i] in key;
    key
  }

  lemma {:induction false} StripSpacesAppend(a: string, b: string)
    ensures StripSpaces(a + b) == StripSpaces(a) + StripSpaces(b)
  {
    if a == [] {
      assert a + b == b;
    } else {
      assert (a + b)[1..] == a[1..] + b;
      StripSpacesAppend(a[1..], b);
    }
  }

  lemma ToLowerAppend(a: string, b: string)
    ensures ToLower(a + b) == ToLower(a) + ToLower(b)
  {
  }

  /** Normalisation works character by character, so it distributes over
      concatenation. */
  lemma NormalizeAppend(a: string, b: string)
    ensures Normalize(a + b) == Normalize(a) + Normalize(b)
  {
    ToLowerAppend(a, b);
    StripSpacesAppend(ToLower(a), ToLower(b));
  }

  /** A string that is already a normal key is its own key. */
  lemma {:induction false} NormalIsFixed(k: string)
    requires IsNormal(k)
    ensures Normalize(k) == k
  {
    if k != [] {
      assert IsNormal(k[1..]) by {
        forall i | 0 <= i < |k[1..]| ensures !IsSpace(k[1..][i]) && !IsUpper(k[1..][i]) {
          assert k[1..][i] == k[i + 1];
        }
      }
      NormalIsFixed(k[1..]);
      assert k == [k[0]] + k[1..];
      NormalizeAppend([k[0]], k[1..]);
      assert ToLower([k[0]]) == [k[0]];
    }
  }

  /** Normalising twice gives the same key as normalising once. */
  lemma NormalizeIdempotent(s: string)
    ensures Normalize(Normalize(s)) == Normalize(s)
  {
    NormalIsFixed(Normalize(s));
  }

  /** Lower-casing never creates or removes white space, so the order of the
      two steps at server.js:242 does not matter. */
  lemma {:induction false} NormalizeCommutes(s: string)
    ensures Normalize(s) == ToLower(StripSpaces(s))
  {
    if s != [] {
      NormalizeCommutes(s[1..]);
      assert s == [s[0]] + s[1..];
      NormalizeAppend([s[0]], s[1..]);
      StripSpacesAppend([s[0]], s[1..]);
      ToLowerAppend(StripSpaces([s[0]]), StripSpaces(s[1..]));
    }
  }

  /** Inserting a white-space character anywhere does not change the key. */
  lemma SpaceInsensitive(a: string, w: char, b: string)
    requires IsSpace(w)
    ensures Normalize(a + [w] + b) == Normalize(a + b)
  {
    NormalizeAppend(a + [w], b);
    NormalizeAppend(a, [w]);
    NormalizeAppend(a, b);
  }

  /** Changing the case of one character does not change the key. */
  lemma CaseInsensitive(a: string, c: char, b: string)
    ensures Normalize(a + [c] + b) == Normalize(a + [LowerChar(c)] + b)
  {
    NormalizeAppend(a + [c], b);
    NormalizeAppend(a, [c]);
    NormalizeAppend(a + [LowerChar(c)], b);
    NormalizeAppend(a, [LowerChar(c)]);
  }

  /** The template parameters built by the handler: `seo` always, `color`
      and `colorError` only in the shapes of server.js:248-259. */
  datatype ColorParams = ColorParams(seo: Json, color: Field<Json>, colorError: Field<string>)

  /** The test `if (colors[color])` at server.js:245, with the table read as
      a map of its own keys. */
  predicate Found(colors: map<string, Json>, key: string)
  {
    key in colors && Truthy(colors[key])
  }

  /** Whether the submitted field is truthy (server.js:235): present and not
      the empty string. */
  predicate Submitted(color: Option<string>)
  {
    color.Some? && color.value != ""
  }

  /** `POST /` (server.js:226-265): the parameters passed to the template for
      the submitted `color` field. */
  function HandleColor(colors: map<string, Json>, seo: Json, color: Option<string>): (p: ColorParams)
    ensures p.seo == seo
    ensures p.color.Set? <==> Submitted(color) && Found(colors, Normalize(color.value))
    ensures p.color.Set? ==> p.color.value == colors[Normalize(color.value)] && p.colorError == Null
    ensures p.colorError.Set? <==> Submitted(color) && !Found(colors, Normalize(color.value))
    ensures p.colorError.Set? ==> p.colorError.value == color.value && p.color == Unset
    ensures !Submitted(color) ==> p.color == Unset && p.colorError == Unset
  {
    if !Submitted(color) then
      ColorParams(seo, Unset, Unset)
    else
      var key := Normalize(color.value);
      if Found(colors, key) then ColorParams(seo, Set(colors[key]), Null)
      else ColorParams(seo, Unset, Set(color.value))
  }

  /** Without a submitted colour the table is not consulted: any two tables
      give the same parameters, which hold only `seo`. */
  lemma EmptyInputIgnoresTable(colors1: map<string, Json>, colors2: map<string, Json>, seo: Json, color: Option<string>)
    requires !Submitted(color)
    ensures HandleColor(colors1, seo, color) == HandleColor(colors2, seo, color) == ColorParams(seo, Unset, Unset)
  {
  }

  /** Exactly one of the three shapes of server.js:229, 248 and 256 comes out. */
  lemma ThreeShapes(colors: map<string, Json>, seo: Json, color: Option<string>)
    ensures var p := HandleColor(colors, seo, color);
      || (p.color == Unset && p.colorError == Unset)
      || (p.color.Set? && p.colorError == Null)
      || (p.color == Unset && p.colorError.Set?)
  {
  }

  /** `s` spells the key `k`: read left to right, each character of `s` is
      either white space or, once lowered, the next character of `k`. */
  predicate SpelledAs(s: string, k: string)
    decreases |s|
  {
    if s == [] then k == []
    else if IsSpace(s[0]) then SpelledAs(s[1..], k)
    else k != [] && LowerChar(s[0]) == k[0] && SpelledAs(s[1..], k[1..])
  }

  /** Every spelling of a key forms that key. */
  lemma {:induction false} SpellingFormsKey(s: string, k: string)
    requires SpelledAs(s, k)
    ensures Normalize(s) == k
    decreases |s|
  {
    if s != [] {
      assert s == [s[0]] + s[1..];
      NormalizeAppend([s[0]], s[1..]);
      assert ToLower([s[0]]) == [LowerChar(s[0])];
      if IsSpace(s[0]) {
        SpellingFormsKey(s[1..], k);
      } else {
        SpellingFormsKey(s[1..], k[1..]);
        assert k == [k[0]] + k[1..];
      }
    }
  }

  /** Every stored record is reached from any spelling of its key, in any
      case and with any white space: the result is the record itself and a
      null error. */
  lemma AnySpellingFindsRecord(colors: map<string, Json>, seo: Json, k: string, s: string)
    requires Found(colors, k) && s != "" && SpelledAs(s, k)
    ensures HandleColor(colors, seo, Some(s)) == ColorParams(seo, Set(colors[k]), Null)
  {
    SpellingFormsKey(s, k);
  }

  /** Two submissions with the same key give the same parameters when both
      were found, and each echoes its own raw text when not. */
  lemma SameKeySameColor(colors: map<string, Json>, seo: Json, a: string, b: string)
    requires a != "" && b != "" && Normalize(a) == Normalize(b)
    ensures HandleColor(colors, seo, Some(a)).color == HandleColor(colors, seo, Some(b)).color
    ensures HandleColor(colors, seo, Some(a)).colorError.Set? ==>
              HandleColor(colors, seo, Some(a)).colorError == Set(a) &&
              HandleColor(colors, seo, Some(b)).colorError == Set(b)
  {
  }

  /** A lone white-space submission is truthy, so the table is consulted
      with the empty key and, when that is not a colour, the raw white space
      is echoed back. */
  lemma {:induction false} BlankSubmissionEchoes(colors: map<string, Json>, seo: Json, s: string)
    requires s != [] && forall i :: 0 <= i < |s| ==> IsSpace(s[i])
    requires !Found(colors, "")
    ensures HandleColor(colors, seo, Some(s)) == ColorParams(seo, Unset, Set(s))
  {
    NormalizeCommutes(s);
  }

  /** JavaScript indexing as written at server.js:245: a name missing from
      the table still reads the properties every object inherits, and the two
      of them whose names are already lower case and free of white space are
      truthy (a function and an object). */
  const InheritedKeys: set<string> := {"constructor", "__proto__"}

  predicate GuardAsWritten(colors: map<string, Json>, key: string)
  {
    if key in colors then Truthy(colors[key]) else key in InheritedKeys
  }

  /** As written, submitting "constructor" passes the test at server.js:245
      for a table that has no such colour, so the found branch renders an
      inherited function as the colour; the model reports it as not found. */
  lemma InheritedKeyPassesGuard(colors: map<string, Json>, seo: Json, input: string)
    requires input == "constructor" && input !in colors
    ensures Normalize(input) == input
    ensures GuardAsWritten(colors, Normalize(input))
    ensures HandleColor(colors, seo, Some(input)) == ColorParams(seo, Unset, Set(input))
  {
    ConstructorKey(input);
  }

  lemma ConstructorKey(input: string)
    requires input == "constructor"
    ensures Normalize(input) == input
  {
    assert IsNormal(input);
    NormalIsFixed(input);
  }

  /** With own keys only, a rendered colour is always a truthy record stored
      under the submitted name's key. */
  lemma FoundColorIsTableRecord(colors: map<string, Json>, seo: Json, color: Option<string>)
    requires HandleColor(colors, seo, color).color.Set?
    ensures color.Some? && Normalize(color.value) in colors
    ensures HandleColor(colors, seo, color).color.value == colors[Normalize(color.value)]
    ensures Truthy(colors[Normalize(color.value)])
  {
  }
}
