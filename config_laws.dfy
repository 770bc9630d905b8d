/** What `modifyConfig` guarantees: which step decides each field, preset
    atomicity, the bed-type re-derivation, "Reset all", idempotence, and where
    the stored configuration can leave the Standard/Mobile pairing. The laws
    are stated on the field-by-field result `Apply`, which `ModifyIsApply`
    shows to be what `modifyConfig` returns whenever the update succeeds. */
module ConfigLaws {
  import opened ConfigStore

  /** A field no later step writes takes the update's value if the update has
      one, and keeps the old value otherwise. */
  lemma UpdateOverridesConfig(config: Config, update: Config, k: Key)
    requires IsConfig(config) && IsPartial(update)
    requires !IsReset(update)
    requires !(Sets(update, OtherPreset) && k in OTHER_CONFIG_KEYS)
    requires !(Sets(update, SizePreset) && k in SIZE_CONFIG_KEYS)
    requires !(RederivesBedType(config, update) && (k == BedZOffset || k == LegsFlush))
    ensures k in update ==> Apply(config, update)[k] == update[k]
    ensures k !in update ==> Apply(config, update)[k] == config[k]
  {
    SizeKeysAreSizeGroup(k);
    OtherKeysAreOtherGroup(k);
  }

  /** With a size preset (and no reset), every size field comes from the
      preset, whatever size values the update itself carried. */
  lemma SizePresetAtomic(config: Config, update: Config, k: Key)
    requires IsConfig(config) && IsPartial(update)
    requires NamesPreset(update, SizePreset) && Sets(update, SizePreset) && !IsReset(update)
    requires k in SIZE_CONFIG_KEYS
    ensures Apply(config, update)[k] == PresetValue(PresetNamed(update[SizePreset].s).value, k)
  {
    SizeKeysAreSizeGroup(k);
  }

  /** A size-preset-only update succeeds and makes the bed "Standard". */
  lemma SizePresetOnlyIsStandard(config: Config, name: string)
    requires IsConfig(config) && PresetNamed(name).Some?
    ensures UpdateSucceeds(map[SizePreset := Str(name)])
    ensures Apply(config, map[SizePreset := Str(name)])[BedType] == Str("Standard")
  {
    PresetsAreStandard(PresetNamed(name).value);
  }

  /** After a size-preset-only update on a bed that was not "Standard", the
      bed-type pair is re-derived to 0 and flush legs. */
  lemma SizePresetOnlyRederives(config: Config, name: string)
    requires IsConfig(config) && PresetNamed(name).Some?
    requires config[BedType] != Str("Standard")
    ensures Apply(config, map[SizePreset := Str(name)])[BedZOffset] == Num(0.0)
    ensures Apply(config, map[SizePreset := Str(name)])[LegsFlush] == Bool(true)
  {
    var update := map[SizePreset := Str(name)];
    PresetsAreStandard(PresetNamed(name).value);
    assert RederivesBedType(config, update);
    assert FieldAfterUpdate(config, update, BedZOffset) == Num(0.0);
    assert FieldAfterUpdate(config, update, LegsFlush) == Bool(true);
  }

  /** After a size-preset-only update on a "Standard" bed, the bed-type pair
      keeps its old values. */
  lemma SizePresetOnlyKeepsPair(config: Config, name: string)
    requires IsConfig(config) && PresetNamed(name).Some?
    requires config[BedType] == Str("Standard")
    ensures Apply(config, map[SizePreset := Str(name)])[BedZOffset] == config[BedZOffset]
    ensures Apply(config, map[SizePreset := Str(name)])[LegsFlush] == config[LegsFlush]
  {
    var update := map[SizePreset := Str(name)];
    PresetsAreStandard(PresetNamed(name).value);
    assert !RederivesBedType(config, update);
    assert FieldAfterUpdate(config, update, BedZOffset) == config[BedZOffset];
    assert FieldAfterUpdate(config, update, LegsFlush) == config[LegsFlush];
  }

  /** An update that sets the bed type, and no other preset, re-derives the
      pair: 500 and raised legs for "Mobile", 0 and flush legs otherwise. */
  lemma BedTypeDerivation(config: Config, update: Config)
    requires IsConfig(config) && IsPartial(update)
    requires Sets(update, BedType) && !Sets(update, OtherPreset)
    ensures Apply(config, update)[BedZOffset] ==
      Num(if update[BedType] == Str("Mobile") then 500.0 else 0.0)
    ensures Apply(config, update)[LegsFlush] == Bool(update[BedType] != Str("Mobile"))
  {
  }

  /** "Reset all" yields `INITIAL` exactly, whatever else the update set. */
  lemma ResetAll(config: Config, update: Config)
    requires IsConfig(config) && IsPartial(update)
    requires IsReset(update)
    ensures Apply(config, update) == INITIAL
  {
    InitialIsConfig();
    SameMap(Apply(config, update), INITIAL);
  }

  /** A named other preset writes exactly the other-group fields; every other
      field keeps the value it had after steps 1 to 3. */
  lemma OtherPresetApplies(config: Config, update: Config, k: Key)
    requires IsConfig(config) && IsPartial(update)
    requires NamesPreset(update, OtherPreset) && Sets(update, OtherPreset) && !IsReset(update)
    ensures k in OTHER_CONFIG_KEYS ==>
      Apply(config, update)[k] == PresetValue(PresetNamed(update[OtherPreset].s).value, k)
    ensures k !in OTHER_CONFIG_KEYS ==>
      Apply(config, update)[k] == FieldBeforeOtherPreset(config, update, k)
  {
    OtherKeysAreOtherGroup(k);
  }

  /** Once an update has been applied, the bed type it leaves behind is the one
      a second application computes, so a second application re-derives the
      pair only if the update sets the bed type itself. */
  lemma RederiveSettles(config: Config, update: Config)
    requires IsConfig(config) && IsPartial(update)
    requires !IsReset(update)
    ensures RederivesBedType(Apply(config, update), update) == Sets(update, BedType)
  {
  }

  lemma ApplyIdempotentField(config: Config, update: Config, k: Key)
    requires IsConfig(config) && IsPartial(update)
    requires BedZOffset !in update && LegsFlush !in update
    ensures Apply(Apply(config, update), update)[k] == Apply(config, update)[k]
  {
    var once := Apply(config, update);
    assert once[k] == FieldAfterUpdate(config, update, k);
    assert Apply(once, update)[k] == FieldAfterUpdate(once, update, k);
    if IsReset(update) {
    } else if k == BedZOffset || k == LegsFlush {
      BedPairSettles(config, update, k);
    } else if Sets(update, OtherPreset) && NamesPreset(update, OtherPreset) && GroupOf(k) == OtherGroup {
    } else if Sets(update, SizePreset) && NamesPreset(update, SizePreset) && GroupOf(k) == SizeGroup {
    } else {
      assert FieldAfterUpdate(config, update, k) == if k in update then update[k] else config[k];
    }
  }

  /** A second application re-derives the bed pair exactly as the first left
      it. */
  lemma BedPairSettles(config: Config, update: Config, k: Key)
    requires IsConfig(config) && IsPartial(update) && !IsReset(update)
    requires BedZOffset !in update && LegsFlush !in update
    requires k == BedZOffset || k == LegsFlush
    ensures FieldAfterUpdate(Apply(config, update), update, k) == FieldAfterUpdate(config, update, k)
  {
    RederiveSettles(config, update);
  }

  /** Applying the same update twice gives what applying it once gives, for
      every update that does not write `bedZOffset` or `legsFlush` directly. */
  lemma ApplyIdempotent(config: Config, update: Config)
    requires IsConfig(config) && IsPartial(update)
    requires BedZOffset !in update && LegsFlush !in update
    ensures Apply(Apply(config, update), update) == Apply(config, update)
  {
    var r := Apply(config, update);
    forall k ensures Apply(r, update)[k] == r[k] {
      ApplyIdempotentField(config, update, k);
    }
    SameMap(Apply(r, update), r);
  }

  /** The initial configuration with a Mobile bed. */
  const MOBILE_BED: Config := INITIAL[BedType := Str("Mobile")]

  /** A size preset together with an explicit `bedZOffset`. */
  const OFFSET_UPDATE: Config := map[SizePreset := Str("Genesis"), BedZOffset := Num(100.0)]

  /** On a Mobile bed the size preset makes the bed Standard, so the offset is
      re-derived to 0 and the update's own offset is lost. */
  lemma OffsetUpdateOnce()
    ensures IsConfig(MOBILE_BED)
    ensures Apply(MOBILE_BED, OFFSET_UPDATE)[BedZOffset] == Num(0.0)
    ensures Apply(MOBILE_BED, OFFSET_UPDATE)[BedType] == Str("Standard")
  {
    InitialIsConfig();
    assert PresetNamed("Genesis") == Some(GenesisPreset);
    assert RederivesBedType(MOBILE_BED, OFFSET_UPDATE);
    assert FieldAfterUpdate(MOBILE_BED, OFFSET_UPDATE, BedZOffset) == Num(0.0);
    assert FieldAfterUpdate(MOBILE_BED, OFFSET_UPDATE, BedType) == Str("Standard");
  }

  /** Without the restriction of `ApplyIdempotent` idempotence fails: applying
      the same update a second time keeps the update's own offset. */
  lemma OffsetUpdateNotIdempotent()
    ensures IsConfig(MOBILE_BED)
    ensures Apply(MOBILE_BED, OFFSET_UPDATE)[BedZOffset] == Num(0.0)
    ensures Apply(Apply(MOBILE_BED, OFFSET_UPDATE), OFFSET_UPDATE)[BedZOffset] == Num(100.0)
  {
    OffsetUpdateOnce();
    var once := Apply(MOBILE_BED, OFFSET_UPDATE);
    assert PresetNamed("Genesis") == Some(GenesisPreset);
    assert !RederivesBedType(once, OFFSET_UPDATE);
    assert FieldAfterUpdate(once, OFFSET_UPDATE, BedZOffset) == Num(100.0);
  }

  /** A size preset and a "Mobile" bed type in one update leave a Standard bed
      raised by 500 with unflush legs: the stored configuration does not keep
      the Standard/Mobile pairing. */
  lemma MobileWithSizePreset()
    ensures Apply(INITIAL, map[SizePreset := Str("Genesis"), BedType := Str("Mobile")])[BedType] == Str("Standard")
    ensures Apply(INITIAL, map[SizePreset := Str("Genesis"), BedType := Str("Mobile")])[BedZOffset] == Num(500.0)
    ensures Apply(INITIAL, map[SizePreset := Str("Genesis"), BedType := Str("Mobile")])[LegsFlush] == Bool(false)
  {
    InitialIsConfig();
  }

  /** The "Minimal" other preset turns `legsFlush` off on a Standard bed. */
  lemma MinimalUnflushesStandardBed()
    ensures Apply(INITIAL, map[OtherPreset := Str("Minimal")])[BedType] == Str("Standard")
    ensures Apply(INITIAL, map[OtherPreset := Str("Minimal")])[LegsFlush] == Bool(false)
  {
    InitialIsConfig();
  }

  /** `modifyConfig` applied twice with the same update returns the first
      result again. */
  lemma ModifyIdempotent(config: Config, update: Config)
    requires IsConfig(config) && IsPartial(update)
    requires ModifyConfigSpec(config, update).Ok?
    requires BedZOffset !in update && LegsFlush !in update
    ensures IsConfig(ModifyConfigSpec(config, update).config)
    ensures ModifyConfigSpec(ModifyConfigSpec(config, update).config, update) == ModifyConfigSpec(config, update)
  {
    ModifyFailsIffUnknownPreset(config, update);
    ModifyIsApply(config, update);
    ModifyIsApply(Apply(config, update), update);
    ApplyIdempotent(config, update);
  }

  /** The update `{ otherPreset: "Reset all" }` restores `INITIAL` from any
      configuration. */
  lemma ResetAllScenario(config: Config)
    requires IsConfig(config)
    ensures ModifyConfigSpec(config, map[OtherPreset := Str(RESET_ALL)]) == Ok(INITIAL)
  {
    ModifyIsApply(config, map[OtherPreset := Str(RESET_ALL)]);
    ResetAll(config, map[OtherPreset := Str(RESET_ALL)]);
  }
}
