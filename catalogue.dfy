/** The catalogue the database is seeded with on first creation: the
    default section's name, and each further section with its item names in
    the order the seeding inserts them. */
module Catalogue {
  import opened Listings

  /** The name of the default section, the one for unassigned items. */
  const DefaultSectionName: string := "לא מוקצה"

  const VegFruit: Listing :=
    Listing("ירקות ופירות", [
      "עגבניות", "מלפפונים", "עגבניות שרי בצבעים שונים", "תפוחי אדמה אדומים", "פטריות",
      "גזרים", "כרובית", "כרוב", "קישואים", "בצל יבש",
      "חסה", "חציל", "גמבה", "תפוחים ירוקים", "תפוחים פינק ליידי",
      "ענבים", "תותים", "שזיפים", "תפוזים", "בצל סגול",
      "לימונים", "אבטיח", "רימונים", "מלון", "בננות",
      "מנדרינות", "נקטרינות", "בטטה", "דלעת", "תרד",
      "אבוקדו", "תמרים אורגניים", "צימוקים", "פטרוזיליה", "כוסברה",
      "בזיליקום", "שמיר", "בצל ירוק", "מקלות סלרי"])

  const Dairy: Listing :=
    Listing("מוצרי חלב", [
      "חלב", "חמאה", "פרומעז", "גבינה צהובה פרוסה", "גבינה צהובה פירורים",
      "בולגרית 24%", "פטה", "מוצרלה פרוסה", "גבינה לבנה", "קוטג'",
      "שמנת חמוצה", "שמנת מתוקה", "יוגורטים 3%", "יוגורטים עם חלבון", "פרמזן",
      "שמרית", "אקטימל", "ביצים"])

  const Meat: Listing :=
    Listing("בשר", [
      "נקניק סלמי", "בשר לשניצלים", "המבורגרים"])

  const Pantry: Listing :=
    Listing("מזווה", [
      "פריכיות", "אורז", "אורז מלא", "פתיתים", "פסטה",
      "שמן", "שמן זית", "מייפל", "אבקת מרק בטעם עוף", "אבקת מרק בטעם פטריות",
      "אבקת מרק בטעם בצל", "פירורי לחם", "שקדי מרק", "קפה", "תה ארל גריי",
      "שוקו", "קמח", "סוכר לבן", "סוכר חום", "מלח",
      "רוטב אדום לפסטה", "אבקת אפייה", "סוכר וניל", "אינסטנט פודינג וניל", "אבקת סוכר",
      "סוכריות צבעוניות לעוגה", "שוקולד מריר רגיל", "פפריקה אדומה מתוקה", "פתיבר", "חומוס",
      "רוטב סויה", "פיתות", "חלה", "קטשופ", "טחינה",
      "דבש", "חרדל דיז'ון", "מיונז", "חטיפים", "פופקורן",
      "עוגיות לקפה", "שוקולד נוטלה", "אצבעות קינדר", "שומשום"])

  const Nuts: Listing :=
    Listing("אגוזים", [
      "אגוזי פקאן", "צנוברים", "מקדמיה", "אגוזי מלך", "גרעיני חמנייה קלופים",
      "שקדים קלופים"])

  const Frozen: Listing :=
    Listing("קפואים", [
      "ג'חנון", "מלאווח", "בורקסים קטנים", "פיצות קטנות", "שניצל תירס",
      "שעועית דקה קפואה", "אפונה קפואה", "ברוקולי קפוא", "שימורי חומוס קפוא", "גלידה וניל חלבית"])

  const Drinks: Listing :=
    Listing("משקאות", [
      "סודה", "ויטמינצ'יק", "שלוקים"])

  const Cleaning: Listing :=
    Listing("מוצרי נקיון", [
      "סבון ידיים", "סבון כביסה", "מרכך כביסה", "שפריצר ריח למייבש", "פנטסטיק (המרוכז)",
      "פנטסטיק נוזל רצפה", "נוזל לחלונות", "חומצה 00", "אקונומיקה", "אנטי קלאק אפור",
      "גליל סמרטוטים צהובים", "מגבונים", "מגבות נייר", "נייר טואלט", "מבריק למדיח",
      "מלח למדיח", "סבון למדיח", "ריח לשירותים", "סבון כלים", "תרסיס נגד נמלים",
      "חומר נגד עובש"])

  const Canned: Listing :=
    Listing("שימורים", [
      "קרם קוקוס", "רסק עגבניות", "עגבניות מרוסקות", "שימורי תירס", "שימורי זיתים",
      "זיתים שחורים"])

  const General: Listing :=
    Listing("כללי", [
      "נייר כסף", "ניילון נצמד", "נייר אפיה", "שקיות סנדביץ'", "תבניות חד-פעמיות מלבניות",
      "חד-פעמי סכין", "חד-פעמי מזלג", "חד-פעמי כפית", "חד-פעמי כוסות קר", "חד-פעמי כוסות חם",
      "חד-פעמי קעריות", "חד-פעמי צלחות", "כפפות מדיום שחורות", "דאודורנט אור", "דאודורנט שירי",
      "אפטר שייב", "תחבושות", "תחתוניות", "שמפו", "מרכך",
      "משחת שיניים", "מנקי אוזניים"])

  /** The sections in the order `populateDatabase` inserts them. */
  const Seed: seq<Listing> := [VegFruit, Dairy, Meat, Pantry, Nuts, Frozen, Drinks, Cleaning, Canned, General]
}
