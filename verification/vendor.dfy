/**
 * The guard of `checkXiaomiPermissions`: on Android, a device whose brand or
 * manufacturer names the Xiaomi family (Xiaomi or its Redmi sub-brand) gets the
 * setup dialog. The dialog itself is not modelled; only whether it is shown.
 */
module Vendor {
  import opened Wrappers
  import opened Platform
  import opened Strings

  const Xiaomi := "xiaomi"
  const Redmi := "redmi"

  /** `field?.toLowerCase()?.includes(sub)`: an absent field yields `undefined`, which is falsy. */
  function FieldIncludes(field: Option<string>, sub: string): bool {
    field.Some? && Includes(ToLower(field.value), sub)
  }

  /** Reference meaning: the field is present and, lower-cased, mentions one of the family names. */
  ghost predicate NamesXiaomiFamily(field: Option<string>) {
    field.Some? && (Occurs(ToLower(field.value), Xiaomi) || Occurs(ToLower(field.value), Redmi))
  }

  /** Whether `checkXiaomiPermissions` would show its dialog on this device. */
  function IsXiaomiFamilyDevice(os: Os, brand: Option<string>, manufacturer: Option<string>): (shown: bool)
    ensures shown <==> os == Android && (NamesXiaomiFamily(brand) || NamesXiaomiFamily(manufacturer))
    ensures brand.None? && manufacturer.None? ==> !shown
  {
    os == Android &&
    (FieldIncludes(brand, Xiaomi) || FieldIncludes(manufacturer, Xiaomi) ||
     FieldIncludes(brand, Redmi) || FieldIncludes(manufacturer, Redmi))
  }

  /** The check ignores letter case: an upper-cased brand is classified like the original. */
  lemma BrandCaseIgnored(os: Os, brand: string, manufacturer: Option<string>)
    ensures IsXiaomiFamilyDevice(os, Some(ToUpper(brand)), manufacturer)
         == IsXiaomiFamilyDevice(os, Some(brand), manufacturer)
  {
    ToLowerOfToUpper(brand);
  }

  /** The same for the manufacturer field. */
  lemma ManufacturerCaseIgnored(os: Os, brand: Option<string>, manufacturer: string)
    ensures IsXiaomiFamilyDevice(os, brand, Some(ToUpper(manufacturer)))
         == IsXiaomiFamilyDevice(os, brand, Some(manufacturer))
  {
    ToLowerOfToUpper(manufacturer);
  }

  /** Only Android devices are ever classified as Xiaomi family. */
  lemma OnlyAndroid(os: Os, brand: Option<string>, manufacturer: Option<string>)
    requires os != Android
    ensures !IsXiaomiFamilyDevice(os, brand, manufacturer)
  {
  }

  /** A family name anywhere in the brand matches, whatever surrounds it. */
  lemma EmbeddedNameMatches(prefix: string, suffix: string, manufacturer: Option<string>)
    ensures IsXiaomiFamilyDevice(Android, Some(prefix + "Redmi" + suffix), manufacturer)
  {
    var s := prefix + "Redmi" + suffix;
    var lowered := ToLower(s);
    assert lowered[|prefix|..|prefix| + 5] == Redmi;
    assert OccursAt(lowered, Redmi, |prefix|);
  }

  /** Concrete devices: a Redmi phone, a POCO phone made by Xiaomi, a Samsung phone. */
  lemma ExampleDevices()
    ensures IsXiaomiFamilyDevice(Android, Some("Redmi"), Some("Xiaomi"))
    ensures IsXiaomiFamilyDevice(Android, Some("POCO"), Some("Xiaomi"))
    ensures !IsXiaomiFamilyDevice(Android, Some("samsung"), Some("samsung"))
    ensures !IsXiaomiFamilyDevice(Ios, Some("Xiaomi"), Some("Xiaomi"))
  {
    assert ToLower("samsung") == "samsung";
    AbsentFirstCharNeverOccurs("samsung", Xiaomi);
    AbsentFirstCharNeverOccurs("samsung", Redmi);
    assert ToLower("Xiaomi") == "xiaomi";
    assert ToLower("Redmi") == "redmi";
  }
}
