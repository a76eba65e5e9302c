/**
 * The theme store: the chosen theme (light, dark or following the system)
 * and the theme actually in force. The system preference is an input to
 * each operation that reads it; the attribute written on the document root
 * is the ghost field `applied`.
 */
module ThemeStore {
  import opened Wrappers

  datatype Theme = Light | Dark | System

  /** `'light' | 'dark'`: a theme that can be in force. */
  type ResolvedTheme = t: Theme | t != System witness Light

  /** The theme in force for a choice, given what the system prefers. */
  function Resolve(theme: Theme, system: ResolvedTheme): (r: ResolvedTheme)
    ensures theme != System ==> r == theme
    ensures theme == System ==> r == system
  {
    if theme == System then system else theme
  }

  /** The other resolved theme. */
  function Opposite(t: ResolvedTheme): (r: ResolvedTheme)
    ensures r != t
  {
    if t == Dark then Light else Dark
  }

  /** Taking the opposite twice gives the theme back. */
  lemma OppositeInvolutive(t: ResolvedTheme)
    ensures Opposite(Opposite(t)) == t
  {
  }

  /** The theme a system-preference report stands for. */
  function FromPreference(prefersDark: bool): (t: ResolvedTheme)
    ensures t == Dark <==> prefersDark
  {
    if prefersDark then Dark else Light
  }

  class ThemeState {
    var theme: Theme
    var resolvedTheme: ResolvedTheme
    /** The `data-theme` attribute of the document root, once written. */
    ghost var applied: Option<ResolvedTheme>

    /** An explicit choice is the theme in force, and the document shows the theme in force. */
    ghost predicate Valid()
      reads this
    {
      (theme != System ==> resolvedTheme == theme) && (applied.Some? ==> applied.value == resolvedTheme)
    }

    /** The store as created: following the system, nothing written on the document yet. */
    constructor(system: ResolvedTheme)
      ensures Valid()
      ensures theme == System && resolvedTheme == system && applied == None
    {
      theme := System;
      resolvedTheme := system;
      applied := None;
    }

    /** `setTheme`. */
    method SetTheme(t: Theme, system: ResolvedTheme)
      modifies this
      ensures Valid()
      ensures theme == t && resolvedTheme == Resolve(t, system) && applied == Some(resolvedTheme)
    {
      var r := Resolve(t, system);
      applied := Some(r);
      theme := t;
      resolvedTheme := r;
    }

    /** `toggleTheme`: both fields become the opposite of the theme in force, so system mode is left. */
    method ToggleTheme()
      modifies this
      ensures Valid()
      ensures resolvedTheme == Opposite(old(resolvedTheme)) && theme == resolvedTheme && theme != System
      ensures applied == Some(resolvedTheme)
    {
      var t := Opposite(resolvedTheme);
      applied := Some(t);
      theme := t;
      resolvedTheme := t;
    }

    /** The rehydration callback: the stored choice, if any, is resolved again against the system. */
    method Rehydrate(stored: Option<Theme>, system: ResolvedTheme)
      modifies this
      ensures Valid()
      ensures theme == (if stored.Some? then stored.value else old(theme))
      ensures resolvedTheme == Resolve(theme, system) && applied == Some(resolvedTheme)
    {
      if stored.Some? {
        theme := stored.value;
      }
      var r := Resolve(theme, system);
      applied := Some(r);
      resolvedTheme := r;
    }

    /** The system-preference listener: it acts only while the choice is to follow the system. */
    method SystemChange(prefersDark: bool)
      requires Valid()
      modifies this`resolvedTheme, this`applied
      ensures Valid()
      ensures old(theme) == System ==> resolvedTheme == FromPreference(prefersDark) && applied == Some(resolvedTheme)
      ensures old(theme) != System ==> resolvedTheme == old(resolvedTheme) && applied == old(applied)
    {
      if theme == System {
        var t := FromPreference(prefersDark);
        applied := Some(t);
        resolvedTheme := t;
      }
    }
  }

  /** Toggling twice brings the theme in force back, now as an explicit choice. */
  method ToggleTwice(s: ThemeState)
    requires s.Valid()
    modifies s
    ensures s.Valid()
    ensures s.resolvedTheme == old(s.resolvedTheme) && s.theme == old(s.resolvedTheme)
  {
    s.ToggleTheme();
    s.ToggleTheme();
    OppositeInvolutive(old(s.resolvedTheme));
  }
}
