/**
 * `getColorFromValue`: maps a colour value back to the name of the theme
 * colour that has it. The theme's colours are given as `Object.entries`
 * would list them: (key, value) pairs in insertion order.
 */
module Colors {
  import opened Common

  type ColorEntry = (string, string)

  const AccentPrefix: string := "accent"
  const FallbackKey: string := "primary"

  /** Object keys are unique. */
  predicate DistinctKeys(colors: seq<ColorEntry>)
  {
    forall i, j :: 0 <= i < j < |colors| ==> colors[i].0 != colors[j].0
  }

  /** `value === colorValue`: only a string can equal a colour string. */
  predicate HasValue(e: ColorEntry, colorValue: JsValue)
  {
    colorValue == JsString(e.1)
  }

  function ValueIs(colorValue: JsValue): ColorEntry -> bool
  {
    (e: ColorEntry) => HasValue(e, colorValue)
  }

  function KeyIs(key: string): ColorEntry -> bool
  {
    (e: ColorEntry) => e.0 == key
  }

  /** `theme.colors[key]`. */
  function LookupColor(colors: seq<ColorEntry>, key: string): Option<string>
  {
    match Find(colors, KeyIs(key))
    case None => None
    case Some(e) => Some(e.1)
  }

  predicate IsAccentName(colorValue: JsValue)
  {
    colorValue.JsString? && StartsWith(colorValue.s, AccentPrefix)
  }

  function GetColorFromValue(colors: seq<ColorEntry>, colorValue: JsValue): (r: string)
    ensures IsAccentName(colorValue) ==> r == colorValue.s
    ensures !IsAccentName(colorValue) && (exists i :: 0 <= i < |colors| && HasValue(colors[i], colorValue)) ==>
      exists i :: (0 <= i < |colors| && r == colors[i].0 && HasValue(colors[i], colorValue)
        && forall j :: 0 <= j < i ==> !HasValue(colors[j], colorValue))
    ensures !IsAccentName(colorValue) && (forall i :: 0 <= i < |colors| ==> !HasValue(colors[i], colorValue)) ==>
      r == FallbackKey
    ensures r == FallbackKey || (colorValue.JsString? && r == colorValue.s)
      || exists i :: 0 <= i < |colors| && colors[i].0 == r
  {
    if IsAccentName(colorValue) then colorValue.s
    else match FindIndex(colors, ValueIs(colorValue))
      case Some(i) =>
        assert forall j :: 0 <= j < i ==> !ValueIs(colorValue)(colors[j]);
        colors[i].0
      case None => FallbackKey
  }

  /** With unique keys, the key found maps back to the value looked for. */
  lemma FoundKeyHasTheValue(colors: seq<ColorEntry>, colorValue: JsValue, i: nat)
    requires DistinctKeys(colors)
    requires !IsAccentName(colorValue)
    requires i < |colors| && HasValue(colors[i], colorValue)
    ensures LookupColor(colors, GetColorFromValue(colors, colorValue)) == Some(colorValue.s)
  {
    var k := FindIndex(colors, ValueIs(colorValue)).value;
    assert GetColorFromValue(colors, colorValue) == colors[k].0;
    forall j | 0 <= j < k ensures !KeyIs(colors[k].0)(colors[j]) {
      assert colors[j].0 != colors[k].0;
    }
    FindFirstMatch(colors, KeyIs(colors[k].0), k);
  }
}
