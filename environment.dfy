/** The parts of the browser the theme code reads and writes: which globals
    exist, the operating system's colour-scheme preference, local storage, the
    body's `data-theme` attribute and the root element's class list. */
module Environment {
  import opened ThemeRules

  class Browser {
    /** `typeof window !== 'undefined'` */
    const hasWindow: bool
    /** `typeof document !== 'undefined'` */
    const hasDocument: bool
    /** `matchMedia('(prefers-color-scheme: dark)').matches` */
    var prefersDark: bool
    /** `localStorage`, shared by all tabs of the origin */
    var storage: map<string, string>
    /** `document.body`'s `data-theme` attribute, None when absent */
    var bodyTheme: Option<string>
    /** `document.documentElement.classList` */
    var rootClasses: set<string>

    constructor (hasWindow: bool, hasDocument: bool, prefersDark: bool,
                 storage: map<string, string>, bodyTheme: Option<string>, rootClasses: set<string>)
      ensures this.hasWindow == hasWindow && this.hasDocument == hasDocument
      ensures this.prefersDark == prefersDark && this.storage == storage
      ensures this.bodyTheme == bodyTheme && this.rootClasses == rootClasses
    {
      this.hasWindow := hasWindow;
      this.hasDocument := hasDocument;
      this.prefersDark := prefersDark;
      this.storage := storage;
      this.bodyTheme := bodyTheme;
      this.rootClasses := rootClasses;
    }

    function Conditions(): Env
      reads this
    {
      Env(hasWindow, hasDocument, prefersDark)
    }
  }
}
