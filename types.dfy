/** Shared types of the music platform: the instrument selector, the student
    record and the key signature shown on the circle of fifths. */
module Types {

  /** The conventional optional value (JavaScript's `null`/`undefined`). */
  datatype Option<+T> = None | Some(value: T)

  /** The four instrument timbres the synthesizer knows; 'profelofono' is the
      metallophone. */
  datatype Instrument = Profelofono | Piano | Guitar | Flute

  /** A student's level, one of three fixed labels. */
  datatype Level = Principiante | Intermedio | Avanzado

  /** One row of the teacher's roster. */
  datatype Student = Student(
    id: string,
    name: string,
    email: string,
    instrument: string,
    level: Level,
    joinedDate: string)

  /** A major key: its name, its relative minor, its accidentals and the seven
      notes of its major scale. The fill colour of its slice is kept too. */
  datatype KeySignature = KeySignature(
    key: string,
    relativeMinor: string,
    accidentals: string,
    notes: seq<string>,
    fillColor: string)
}
