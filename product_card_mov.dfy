/** The mobile product card (`ProductCardMov`): the initials shown in place
    of a missing picture, the picture source it builds, the price it
    displays, and which controls it offers for the product's quantity in
    the cart. */
module ProductCardMov {
  import opened Wrappers
  import Seqs
  import Text
  import opened Catalog
  import ProductSearch

  const DataImagePrefix := "data:image/"
  const Base64Prefix := "data:image/png;base64,"

  lemma Base64PrefixIsDataUrl()
    ensures Text.StartsWith(Base64Prefix, DataImagePrefix)
  {
    assert Base64Prefix[..|DataImagePrefix|] == DataImagePrefix;
  }

  // ---------------------------------------------------------------------
  // Initials
  // ---------------------------------------------------------------------

  /** `parts[i][0]` used in a string concatenation: an empty part has no
      first character, and `undefined` is written out as "undefined". */
  function FirstCharText(s: string): (r: string)
    ensures s != "" ==> r == [s[0]]
  {
    if s == "" then "undefined" else [s[0]]
  }

  /** `getInitials` as written, on the parts `split(" ")` makes of the
      trimmed name: a single part gives its first two characters, otherwise
      the first characters of the first two parts. Upper-cased. */
  function GetInitialsOf(parts: seq<string>): string
    requires |parts| >= 1
  {
    if |parts| == 1 then Text.ToUpper(Text.Take(parts[0], 2))
    else Text.ToUpper(FirstCharText(parts[0]) + FirstCharText(parts[1]))
  }

  /** `getInitials`: "P" for an empty name, otherwise as above. */
  function GetInitials(name: string): string
  {
    if name == "" then "P" else GetInitialsOf(Text.Split(Text.Trim(name), ' '))
  }

  /** When `split(" ")` leaves the trimmed name in one part, the result is
      at most two characters, none of them a lower-case letter. */
  lemma GetInitialsSinglePart(parts: seq<string>)
    requires |parts| == 1
    ensures |GetInitialsOf(parts)| <= 2
    ensures forall i :: 0 <= i < |GetInitialsOf(parts)| ==> !Text.IsLowerLetter(GetInitialsOf(parts)[i])
  {
    assert GetInitialsOf(parts) == Text.ToUpper(Text.Take(parts[0], 2));
  }

  /** "A  B" is left as it is by trimming. */
  lemma TrimDoubleSpace()
    ensures Text.Trim("A  B") == "A  B"
  {
    Text.TrimUnchanged("A  B");
  }

  /** "A  B" splits into "A", "" and "B". */
  lemma SplitDoubleSpace()
    ensures Text.Split("A  B", ' ') == ["A", "", "B"]
  {
    assert Text.Split("", ' ') == [""];
    assert "B" == ['B'] + "";
    SplitStep('B', "", ' ');
    assert Text.Split("B", ' ') == ["B"];
    assert " B" == [' '] + "B";
    SplitStep(' ', "B", ' ');
    assert Text.Split(" B", ' ') == ["", "B"];
    assert "  B" == [' '] + " B";
    SplitStep(' ', " B", ' ');
    var p3 := Text.Split("  B", ' ');
    assert p3 == ["", "", "B"];
    assert "A  B" == ['A'] + "  B";
    SplitStep('A', "  B", ' ');
    assert ['A'] + p3[0] == "A" && p3[1..] == ["", "B"];
  }

  /** Two spaces in a row make `split(" ")` produce an empty part, whose
      missing first character turns into the text "undefined": ten
      characters instead of two initials. */
  lemma GetInitialsDoubleSpace()
    ensures GetInitials("A  B") == Text.ToUpper("Aundefined")
    ensures |GetInitials("A  B")| == 10
  {
    TrimDoubleSpace();
    SplitDoubleSpace();
    assert GetInitials("A  B") == GetInitialsOf(["A", "", "B"]);
  }

  /** One step of `Split` on a string given as its first character and the rest. */
  lemma SplitStep(c: char, t: string, sep: char)
    ensures Text.Split([c] + t, sep)
            == if c == sep then [""] + Text.Split(t, sep)
               else [[c] + Text.Split(t, sep)[0]] + Text.Split(t, sep)[1..]
  {
    assert ([c] + t)[1..] == t;
  }

  predicate NonEmpty(s: string) { s != "" }

  function NonEmptyTest(): string -> bool { (s: string) => NonEmpty(s) }

  /** The initials of the parts of a name with the empty parts skipped: at
      most two characters, never "undefined". */
  function InitialsOf(parts: seq<string>): (r: string)
    ensures |r| <= 2
    ensures forall i :: 0 <= i < |r| ==> !Text.IsLowerLetter(r[i])
  {
    var words := Seqs.Filter(parts, NonEmptyTest());
    if |words| == 0 then ""
    else if |words| == 1 then Text.ToUpper(Text.Take(words[0], 2))
    else
      assert NonEmptyTest()(words[0]) && NonEmptyTest()(words[1]) by {
        assert words[0] in words && words[1] in words;
      }
      Text.ToUpper([words[0][0], words[1][0]])
  }

  /** The initials as the words of the name evidently intend: those of the
      non-empty parts of the trimmed name. */
  function Initials(name: string): (r: string)
    ensures |r| <= 2
    ensures forall i :: 0 <= i < |r| ==> !Text.IsLowerLetter(r[i])
  {
    if name == "" then "P" else InitialsOf(Text.Split(Text.Trim(name), ' '))
  }

  /** When no part is empty the two agree. */
  lemma InitialsOfAgree(parts: seq<string>)
    requires |parts| >= 1
    requires forall k :: 0 <= k < |parts| ==> parts[k] != ""
    ensures InitialsOf(parts) == GetInitialsOf(parts)
  {
    forall x | x in parts ensures NonEmptyTest()(x) {
      var k :| 0 <= k < |parts| && parts[k] == x;
    }
    Seqs.FilterAll(parts, NonEmptyTest());
  }

  /** Where the trimmed name has no two spaces in a row (no empty part),
      the corrected initials are the ones the card computes. */
  lemma InitialsAgree(name: string)
    requires forall k :: 0 <= k < |Text.Split(Text.Trim(name), ' ')| ==> Text.Split(Text.Trim(name), ' ')[k] != ""
    ensures Initials(name) == GetInitials(name)
  {
    if name != "" {
      InitialsOfAgree(Text.Split(Text.Trim(name), ' '));
    }
  }

  /** Skipping the empty part, "A", "" and "B" give "AB". */
  lemma InitialsOfSkipsEmpty()
    ensures InitialsOf(["A", "", "B"]) == "AB"
  {
    var parts := ["A", "", "B"];
    assert parts[1..] == ["", "B"] && parts[1..][1..] == ["B"] && parts[1..][1..][1..] == [];
    var words := Seqs.Filter(parts, NonEmptyTest());
    assert words == ["A", "B"];
    assert Text.UpperChar('A') == 'A' && Text.UpperChar('B') == 'B';
  }

  /** The corrected initials of "A  B" are "AB". */
  lemma InitialsDoubleSpace()
    ensures Initials("A  B") == "AB"
  {
    TrimDoubleSpace();
    SplitDoubleSpace();
    InitialsOfSkipsEmpty();
  }

  // ---------------------------------------------------------------------
  // Picture
  // ---------------------------------------------------------------------

  /** A trimmed value long enough to use: a data URL as it is, anything
      else as base64 PNG data. */
  function AsDataUrl(trimmed: string): (r: string)
    requires |trimmed| >= 20
    ensures Text.StartsWith(r, DataImagePrefix)
    ensures |r| >= |trimmed| && r[|r| - 1] == trimmed[|trimmed| - 1]
    ensures Text.StartsWith(trimmed, DataImagePrefix) ==> r == trimmed
    ensures !Text.StartsWith(trimmed, DataImagePrefix) ==> r == Base64Prefix + trimmed
  {
    if Text.StartsWith(trimmed, DataImagePrefix) then trimmed
    else
      Base64PrefixIsDataUrl();
      Text.StartsWithAppend(Base64Prefix, DataImagePrefix, trimmed);
      Base64Prefix + trimmed
  }

  /** `resolveImageSrc` after the trim: nothing for fewer than 20
      characters, otherwise a data URL. */
  function ResolveTrimmed(trimmed: string): (r: Option<string>)
    ensures r.Some? <==> |trimmed| >= 20
    ensures r.Some? ==> Text.StartsWith(r.value, DataImagePrefix)
  {
    if |trimmed| < 20 then None else Some(AsDataUrl(trimmed))
  }

  /** `resolveImageSrc`: nothing for a missing or empty value, otherwise the
      rule above applied to the trimmed value. */
  function ResolveImageSrc(image: Option<string>): (r: Option<string>)
    ensures r.Some? <==> image.Some? && image.value != "" && |Text.Trim(image.value)| >= 20
    ensures r.Some? ==> Text.StartsWith(r.value, DataImagePrefix)
    ensures r.Some? && Text.StartsWith(Text.Trim(image.value), DataImagePrefix) ==>
              r.value == Text.Trim(image.value)
    ensures r.Some? && !Text.StartsWith(Text.Trim(image.value), DataImagePrefix) ==>
              r.value == Base64Prefix + Text.Trim(image.value)
  {
    if image.None? || image.value == "" then None else ResolveTrimmed(Text.Trim(image.value))
  }

  /** A trimmed data URL of 20 characters or more resolves to itself. */
  lemma ResolveDataUrl(t: string)
    requires |t| >= 20 && !Text.IsSpace(t[0]) && !Text.IsSpace(t[|t| - 1])
    requires Text.StartsWith(t, DataImagePrefix)
    ensures ResolveImageSrc(Some(t)) == Some(t)
  {
    Text.TrimUnchanged(t);
    assert ResolveImageSrc(Some(t)) == ResolveTrimmed(t);
  }

  /** What `AsDataUrl` makes of a trimmed value resolves to itself. */
  lemma AsDataUrlFixed(t: string)
    requires |t| >= 20 && !Text.IsSpace(t[|t| - 1])
    ensures ResolveImageSrc(Some(AsDataUrl(t))) == Some(AsDataUrl(t))
  {
    var r := AsDataUrl(t);
    assert r[..|DataImagePrefix|][0] == r[0];
    ResolveDataUrl(r);
  }

  /** A source the card built resolves to itself: the rule never prefixes a
      data URL twice. */
  lemma ResolveImageSrcIdempotent(image: Option<string>, src: string)
    requires ResolveImageSrc(image) == Some(src)
    ensures ResolveImageSrc(Some(src)) == Some(src)
  {
    AsDataUrlFixed(Text.Trim(image.value));
  }

  /** The initials replace the picture when there is no source or it failed to load. */
  predicate ShowInitials(image: Option<string>, imgError: bool)
  {
    ResolveImageSrc(image).None? || imgError
  }

  // ---------------------------------------------------------------------
  // Price
  // ---------------------------------------------------------------------

  /** `Number(x)` of a price field; a missing one is NaN (`None`). */
  function NumberOfPrice(f: PriceField): Option<real>
  {
    match f
    case NoPrice => None
    case NumPrice(x) => Some(x)
    case TextPrice(t) => Text.NumberOf(t)
  }

  /** The price `useMemo`: a finite `list_price` above 0, else a finite
      `price` above 0, else 0. */
  function DisplayPrice(p: Product): (r: real)
    ensures r >= 0.0
    ensures p.listPrice.Some? && p.listPrice.value > 0.0 ==> r == p.listPrice.value
    ensures !(p.listPrice.Some? && p.listPrice.value > 0.0) ==>
              (r > 0.0 <==> NumberOfPrice(p.price).Some? && NumberOfPrice(p.price).value > 0.0)
    ensures r > 0.0 && !(p.listPrice.Some? && p.listPrice.value > 0.0) ==> NumberOfPrice(p.price) == Some(r)
  {
    if p.listPrice.Some? && p.listPrice.value > 0.0 then p.listPrice.value
    else
      var n := NumberOfPrice(p.price);
      if n.Some? && n.value > 0.0 then n.value else 0.0
  }

  /** For a numeric or missing price that is not negative, the card shows
      the unit price the cart charges; a negative price shows as 0. */
  lemma DisplayPriceAgreesWithCart(p: Product)
    requires p.price.NumPrice? || p.price.NoPrice?
    ensures p.price.NumPrice? && p.price.amount < 0.0 && !(p.listPrice.Some? && p.listPrice.value > 0.0)
            ==> DisplayPrice(p) == 0.0 && NumericPrice(p) < 0.0
    ensures !(p.price.NumPrice? && p.price.amount < 0.0) ==> DisplayPrice(p) == NumericPrice(p)
  {
  }

  // ---------------------------------------------------------------------
  // Controls
  // ---------------------------------------------------------------------

  /** The controls: a lone add button, or the +/quantity/- stepper once the
      product is in the cart. */
  datatype Controls = AddButton(enabled: bool) | Stepper(plusEnabled: bool, qty: int)

  function ControlsFor(p: Product, cartQty: int): Controls
  {
    if cartQty > 0 then Stepper(!ProductSearch.OutOfStock(p), cartQty)
    else AddButton(!ProductSearch.OutOfStock(p))
  }

  /** Whether pressing "add" reaches `onAdd`. */
  predicate AddFires(p: Product, cartQty: int)
  {
    match ControlsFor(p, cartQty)
    case AddButton(e) => e
    case Stepper(e, _) => e
  }

  /** The stepper appears exactly when the product is in the cart, and in
      either layout "add" fires exactly when the product is not out of stock. */
  lemma ControlsSpec(p: Product, cartQty: int)
    ensures ControlsFor(p, cartQty).Stepper? <==> cartQty > 0
    ensures ControlsFor(p, cartQty).Stepper? ==> ControlsFor(p, cartQty).qty == cartQty
    ensures AddFires(p, cartQty) <==> !ProductSearch.OutOfStock(p)
  {
  }
}
