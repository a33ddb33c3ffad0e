/**
 * The theme provider (src/context/ThemeContext.tsx): the chosen theme (light,
 * dark or system) read from the store and saved back on every change, and the
 * effective theme (light or dark) the screens paint with. The system's dark
 * preference is a parameter.
 */
module ThemeContext {
  import opened Types
  import opened StorageState
  import StorageLaws
  import Storage

  const OutsideProvider := "useTheme must be used within ThemeProvider"

  /** toggleTheme's choice: light when the screens are dark, dark otherwise. */
  function ToggledTheme(effective: Theme): (r: Theme)
    ensures r != System
    ensures effective != System ==> r != effective
  {
    if effective == Dark then Light else Dark
  }

  /**
   * Toggling never picks 'system'; once saved it flips the effective theme
   * whatever the system prefers; toggling twice from a painted theme returns
   * to it.
   */
  lemma ToggledThemeLaws(s: StoreState, systemPrefersDark: bool, otherPreference: bool)
    ensures var effective := GetEffectiveTheme(s, systemPrefersDark);
      var r := SaveTheme(s, ToggledTheme(effective));
      && ToggledTheme(effective) != System
      && GetEffectiveTheme(r, otherPreference) != effective
      && GetEffectiveTheme(r, otherPreference) == ToggledTheme(effective)
      && ToggledTheme(ToggledTheme(effective)) == effective
  {
    StorageLaws.EffectiveThemeLaws(s, ToggledTheme(GetEffectiveTheme(s, systemPrefersDark)), otherPreference);
    StorageLaws.EffectiveThemeLaws(s, Light, systemPrefersDark);
  }

  /** What useTheme hands a screen. */
  datatype ThemeValue = ThemeValue(theme: Theme, effectiveTheme: Theme)

  /** useTheme: the provider's value, or an error outside any provider. */
  function UseTheme(context: Option<ThemeValue>): (r: Result<ThemeValue>)
    ensures r.Success? <==> context.Some?
    ensures r.Success? ==> r.value == context.value
    ensures r.Failure? ==> r.message == OutsideProvider
  {
    if context.None? then Failure(OutsideProvider) else Success(context.value)
  }

  class Provider {
    var theme: Theme
    var effectiveTheme: Theme

    /** The provider as mounted: both themes from the store. */
    constructor (store: Storage.Store, systemPrefersDark: bool)
      ensures theme == GetTheme(store.State())
      ensures effectiveTheme == GetEffectiveTheme(store.State(), systemPrefersDark)
    {
      theme := GetTheme(store.State());
      effectiveTheme := GetEffectiveTheme(store.State(), systemPrefersDark);
    }

    /** The effect that runs after a theme change and on every change of the system preference. */
    method Refresh(store: Storage.Store, systemPrefersDark: bool)
      modifies this
      ensures effectiveTheme == GetEffectiveTheme(store.State(), systemPrefersDark) && theme == old(theme)
    {
      effectiveTheme := GetEffectiveTheme(store.State(), systemPrefersDark);
    }

    /** setTheme: remember the choice and save it. */
    method SetTheme(store: Storage.Store, newTheme: Theme)
      modifies this, store
      ensures theme == newTheme && effectiveTheme == old(effectiveTheme)
      ensures store.State() == SaveTheme(old(store.State()), newTheme)
      ensures GetTheme(store.State()) == newTheme
    {
      theme := newTheme;
      store.SaveTheme(newTheme);
      StorageLaws.EffectiveThemeLaws(old(store.State()), newTheme, false);
    }

    /** toggleTheme: set the opposite of what the screens show now. */
    method ToggleTheme(store: Storage.Store)
      modifies this, store
      ensures theme == ToggledTheme(old(effectiveTheme)) && theme != System
      ensures store.State() == SaveTheme(old(store.State()), ToggledTheme(old(effectiveTheme)))
    {
      SetTheme(store, ToggledTheme(effectiveTheme));
    }
  }
}
