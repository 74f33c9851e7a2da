/** The colour and size pickers. The chosen values live in the page's state;
    every choice is also written to browser storage under a fixed key, and
    on mount a stored choice is put back if it is present and not empty.
    The keys do not depend on the product, so a choice carries over to
    every product page. */
module ProductVariants {
  import opened Wrappers

  const ColorKey := "selectedColor"
  const SizeKey := "selectedSize"

  /** `localStorage.getItem`: the stored string, or null when the key was
      never written. */
  function GetItem(storage: map<string, string>, key: string): (r: Option<string>)
    ensures r.None? <==> key !in storage
    ensures r.Some? ==> r.value == storage[key]
  {
    if key in storage then Some(storage[key]) else None
  }

  /** `if (saved) onChange(saved)`: only a truthy value (present and not
      the empty string) replaces the current choice. */
  function Restored(current: string, saved: Option<string>): string
  {
    if saved.Some? && saved.value != "" then saved.value else current
  }

  /** A stored choice is restored exactly when it is present and not empty. */
  lemma RestoreRule(current: string, saved: Option<string>)
    ensures saved.Some? && saved.value != "" ==> Restored(current, saved) == saved.value
    ensures saved.None? || saved.value == "" ==> Restored(current, saved) == current
  {
  }

  /** Writing one key leaves the other one as it was. */
  lemma KeysIndependent(storage: map<string, string>, value: string)
    ensures GetItem(storage[ColorKey := value], SizeKey) == GetItem(storage, SizeKey)
    ensures GetItem(storage[SizeKey := value], ColorKey) == GetItem(storage, ColorKey)
    ensures GetItem(storage[ColorKey := value], ColorKey) == Some(value)
    ensures GetItem(storage[SizeKey := value], SizeKey) == Some(value)
  {
  }

  /** One product page's pickers: the page's current choice and browser
      storage. The product's colour and size lists only decide which buttons
      are drawn; no handler consults them. */
  class VariantPicker {
    var selectedColor: string
    var selectedSize: string
    var storage: map<string, string>

    constructor (color: string, size: string, storage: map<string, string>)
      ensures selectedColor == color && selectedSize == size && this.storage == storage
    {
      selectedColor := color;
      selectedSize := size;
      this.storage := storage;
    }

    /** The mount effect: restore stored choices; storage is only read. */
    method Mount()
      modifies this
      ensures selectedColor == Restored(old(selectedColor), GetItem(storage, ColorKey))
      ensures selectedSize == Restored(old(selectedSize), GetItem(storage, SizeKey))
      ensures storage == old(storage)
    {
      var savedColor := GetItem(storage, ColorKey);
      var savedSize := GetItem(storage, SizeKey);
      if savedColor.Some? && savedColor.value != "" {
        selectedColor := savedColor.value;
      }
      if savedSize.Some? && savedSize.value != "" {
        selectedSize := savedSize.value;
      }
    }

    method HandleColorChange(color: string)
      modifies this
      ensures selectedColor == color && storage == old(storage)[ColorKey := color]
      ensures selectedSize == old(selectedSize)
      ensures GetItem(storage, SizeKey) == GetItem(old(storage), SizeKey)
    {
      selectedColor := color;
      storage := storage[ColorKey := color];
    }

    method HandleSizeChange(size: string)
      modifies this
      ensures selectedSize == size && storage == old(storage)[SizeKey := size]
      ensures selectedColor == old(selectedColor)
      ensures GetItem(storage, ColorKey) == GetItem(old(storage), ColorKey)
    {
      selectedSize := size;
      storage := storage[SizeKey := size];
    }
  }

  /** A colour picked on one product's page is what a later mount of any
      product's pickers restores: the key names no product and the restore
      never checks the colour against the product's list. The size choice
      stays as storage had it. */
  method ChoiceCarriesAcrossProducts(storage: map<string, string>, color: string,
                                     initialColor: string, initialSize: string)
    returns (restoredColor: string, restoredSize: string)
    requires color != ""
    ensures restoredColor == color
    ensures restoredSize == Restored(initialSize, GetItem(storage, SizeKey))
  {
    var page := new VariantPicker(initialColor, initialSize, storage);
    page.HandleColorChange(color);
    var next := new VariantPicker(initialColor, initialSize, page.storage);
    next.Mount();
    restoredColor, restoredSize := next.selectedColor, next.selectedSize;
  }

  /** Picking the empty string is written to storage but is not restored. */
  method EmptyChoiceNotRestored(storage: map<string, string>, initialColor: string, initialSize: string)
    returns (restoredColor: string)
    ensures restoredColor == initialColor
  {
    var page := new VariantPicker(initialColor, initialSize, storage);
    page.HandleColorChange("");
    var next := new VariantPicker(initialColor, initialSize, page.storage);
    next.Mount();
    restoredColor := next.selectedColor;
  }
}
