/**
 * The level editor of editor.js: the path drawn by clicking the canvas and the wave
 * builder, which collects enemy kinds into a comma-joined preview and saves the
 * tokenised preview as a wave.
 */
module PathEditor {
  import opened PathModel
  import opened WaveText

  /** A path can be played once it has this many waypoints. */
  const MIN_PATH_POINTS := 2

  /** Whether a canvas click lands in editor mode: the editor panel lacks the `hidden` class or is not `display: none`. */
  predicate EditorMode(panelHiddenClass: bool, panelDisplayNone: bool)
  {
    !panelHiddenClass || !panelDisplayNone
  }

  /** Every token of every saved wave is clean. */
  predicate CleanWaves(waves: seq<seq<string>>)
  {
    forall i, k | 0 <= i < |waves| && 0 <= k < |waves[i]| :: CleanToken(waves[i][k])
  }

  /**
   * The `Editor` object, together with the text of the wave preview box, which the
   * handlers write and saveWave reads.
   */
  class Editor {
    var drawing: bool
    var path: seq<Point>
    var currentWave: seq<string>
    var savedWaves: seq<seq<string>>
    var preview: string

    /** Saved waves only ever hold what saveWave's tokeniser produces. */
    predicate Valid()
      reads this
    {
      CleanWaves(savedWaves)
    }

    constructor ()
      ensures Valid()
      ensures drawing && path == [] && currentWave == [] && savedWaves == [] && preview == []
    {
      drawing := true;
      path := [];
      currentWave := [];
      savedWaves := [];
      preview := [];
    }

    /** The toggleDraw button: flips the drawing flag and nothing else. */
    method ToggleDraw()
      requires Valid()
      modifies this`drawing
      ensures Valid()
      ensures drawing == !old(drawing)
    {
      drawing := !drawing;
    }

    /** The resetPath button: the path becomes empty. */
    method ResetPath()
      requires Valid()
      modifies this`path
      ensures Valid()
      ensures path == []
    {
      path := [];
    }

    /** The savePath button: accepts a path of at least two points and never changes it. */
    method SavePath() returns (accepted: bool)
      ensures accepted <==> |path| >= MIN_PATH_POINTS
    {
      accepted := |path| >= MIN_PATH_POINTS;
    }

    /** The addToWave button: appends the selected enemy kind and shows the wave joined with commas. */
    method AddToWave(sel: string)
      requires Valid()
      modifies this`currentWave, this`preview
      ensures Valid()
      ensures currentWave == old(currentWave) + [sel]
      ensures preview == Join(currentWave, ',')
    {
      currentWave := currentWave + [sel];
      preview := Join(currentWave, ',');
    }

    /** The user editing the wave preview box by hand. */
    method EditPreview(text: string)
      requires Valid()
      modifies this`preview
      ensures Valid()
      ensures preview == text
    {
      preview := text;
    }

    /**
     * The saveWave button. Blank text is refused and nothing changes; otherwise the tokens of
     * the text become one new saved wave, the box is cleared and the wave being built is
     * dropped. A preview that addToWave wrote from clean tokens is saved as exactly that wave.
     */
    method SaveWave() returns (saved: bool)
      requires Valid()
      modifies this`savedWaves, this`preview, this`currentWave
      ensures Valid()
      ensures saved <==> !Blank(old(preview))
      ensures !saved ==> unchanged(this)
      ensures saved ==> savedWaves == old(savedWaves) + [Tokens(old(preview))] && preview == [] && currentWave == []
      ensures old(currentWave) != [] && old(preview) == Join(old(currentWave), ',')
              && (forall k | 0 <= k < |old(currentWave)| :: CleanToken(old(currentWave)[k]))
              ==> saved && savedWaves == old(savedWaves) + [old(currentWave)]
    {
      SavedWaveRoundTrip(currentWave, preview);
      // `!txt` for the trimmed text: trim gives "" exactly when the text is blank
      if Blank(preview) {
        return false;
      }
      SavedWaveClean(savedWaves, preview);
      Commit(Tokens(preview));
      saved := true;
    }

    /** Appends a wave and clears the box and the wave being built. */
    method Commit(wave: seq<string>)
      requires CleanWaves(savedWaves + [wave])
      modifies this`savedWaves, this`preview, this`currentWave
      ensures Valid()
      ensures savedWaves == old(savedWaves) + [wave] && preview == [] && currentWave == []
    {
      savedWaves := savedWaves + [wave];
      preview := [];
      currentWave := [];
    }

    /**
     * The editor's canvas click at (x, y). It does nothing while the menu screen shows; in
     * editor mode it appends the point, the same way whether or not drawing is on; otherwise
     * it leaves the click to the game.
     */
    method Click(x: real, y: real, menuShown: bool, panelHiddenClass: bool, panelDisplayNone: bool)
      returns (appended: bool)
      requires Valid()
      modifies this`path
      ensures Valid()
      ensures appended <==> !menuShown && EditorMode(panelHiddenClass, panelDisplayNone)
      ensures path == old(path) + (if appended then [Point(x, y)] else [])
    {
      if menuShown {
        return false;
      }
      if EditorMode(panelHiddenClass, panelDisplayNone) {
        if drawing {
          path := path + [Point(x, y)];
        } else {
          path := path + [Point(x, y)];
        }
        return true;
      }
      appended := false;
    }
  }

  /** Appending the tokens of any text keeps every saved wave clean. */
  lemma SavedWaveClean(waves: seq<seq<string>>, text: string)
    requires CleanWaves(waves)
    ensures CleanWaves(waves + [Tokens(text)])
  {
    TokensAreClean(text);
    var wave := Tokens(text);
    var ws := waves + [wave];
    forall i, k | 0 <= i < |ws| && 0 <= k < |ws[i]| ensures CleanToken(ws[i][k]) {
      if i < |waves| {
        assert ws[i] == waves[i];
      } else {
        assert ws[i] == wave;
      }
    }
  }

  /** The preview addToWave wrote from a clean non-empty wave is saved, as exactly that wave. */
  lemma SavedWaveRoundTrip(ws: seq<string>, text: string)
    ensures ws != [] && text == Join(ws, ',') && (forall k | 0 <= k < |ws| :: CleanToken(ws[k]))
            ==> !Blank(text) && Tokens(text) == ws
  {
    if ws != [] && text == Join(ws, ',') && forall k | 0 <= k < |ws| :: CleanToken(ws[k]) {
      JoinedWaveNotBlank(ws);
      TokensOfJoin(ws);
    }
  }

  /** A clean non-empty wave joined with commas is not blank, so saving it goes ahead. */
  lemma JoinedWaveNotBlank(ws: seq<string>)
    requires ws != [] && forall k | 0 <= k < |ws| :: CleanToken(ws[k])
    ensures !Blank(Join(ws, ','))
  {
    JoinTrimmed(ws);
    JoinEnds(ws, ',');
    TrimTrimmed(Join(ws, ','));
  }
}
