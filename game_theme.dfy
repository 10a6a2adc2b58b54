/** GameTheme.swift: the two visual themes and the asset paths they select. */
module GameThemes {

  datatype GameTheme = Neon | Bold {

    /** `filePathPrefix`: the asset folder of the theme. */
    function FilePathPrefix(): string {
      match this
      case Neon => "Neon"
      case Bold => "Bold"
    }

    /** `allowsGlow`: glow is switched off in both themes. */
    predicate AllowsGlow() {
      match this
      case Neon => false
      case Bold => false
    }

    /** `filePath(for:)`: the path prefixed with the theme's folder. */
    function FilePath(path: string): string {
      FilePathPrefix() + "/" + path
    }
  }

  /** The initial value of `GameTheme.current`. */
  const InitialTheme := Bold

  /** The four-letter prefix and the separator are followed by the path itself. */
  lemma FilePathShape(t: GameTheme, p: string)
    ensures |t.FilePath(p)| == |p| + 5
    ensures t.FilePath(p)[..4] == t.FilePathPrefix() && t.FilePath(p)[4] == '/'
    ensures t.FilePath(p)[5..] == p
  {
    assert t.FilePath(p) == t.FilePathPrefix() + ("/" + p);
  }

  /** A prefixed path determines both the theme and the path it came from. */
  lemma FilePathInjective(t: GameTheme, p: string, u: GameTheme, q: string)
    requires t.FilePath(p) == u.FilePath(q)
    ensures t == u && p == q
  {
    FilePathShape(t, p);
    FilePathShape(u, q);
    assert t.FilePath(p)[0] == u.FilePath(q)[0];
  }

  /** The two themes give different paths for the same asset. */
  lemma ThemesGiveDifferentPaths(p: string)
    ensures Neon.FilePath(p) != Bold.FilePath(p)
  {
    if Neon.FilePath(p) == Bold.FilePath(p) {
      FilePathInjective(Neon, p, Bold, p);
    }
  }

  lemma GlowNeverAllowed(t: GameTheme)
    ensures !t.AllowsGlow()
  {
  }

  /** `GameTheme.current` starts as bold, so assets are first looked up under "Bold/". */
  lemma InitialThemeIsBold(p: string)
    ensures InitialTheme == Bold
    ensures InitialTheme.FilePath(p) == "Bold/" + p
  {
  }
}
